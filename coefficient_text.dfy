/**
 * The coefficient file shared by training and prediction: the writer's two
 * labelled lines, and the reader's line split, strip, colon split and
 * float conversion, over the subset of Python's float() syntax that plain
 * decimal notation covers.
 */
module CoefficientText {

  datatype Option<T> = None | Some(value: T)

  // ---------------------------------------------------------------------
  // Characters and searching
  // ---------------------------------------------------------------------

  /** The characters str.strip() removes that are ASCII: \t \n \v \f \r, the separators \x1c–\x1f, and space. */
  predicate IsWhitespace(c: char)
  {
    c == ' ' || (9 <= c as int <= 13) || (0x1c <= c as int <= 0x1f)
  }

  predicate IsDigit(c: char)
  {
    '0' <= c <= '9'
  }

  function DigitValue(c: char): nat
    requires IsDigit(c)
  {
    (c as int) - ('0' as int)
  }

  function DigitChar(d: nat): char
    requires d < 10
  {
    (('0' as int) + d) as char
  }

  predicate AllDigits(s: string)
  {
    forall i :: 0 <= i < |s| ==> IsDigit(s[i])
  }

  /** The characters a decimal number is written with. */
  predicate IsNumberChar(c: char)
  {
    IsDigit(c) || c == '+' || c == '-' || c == '.'
  }

  /** Position of the first c in s, or |s| when there is none. */
  function IndexOf(s: string, c: char): (i: nat)
    ensures i <= |s|
    ensures i < |s| ==> s[i] == c
    ensures forall j :: 0 <= j < i ==> s[j] != c
  {
    if s == [] then 0
    else if s[0] == c then 0
    else 1 + IndexOf(s[1..], c)
  }

  lemma {:induction false} IndexOfAfterPrefix(a: string, b: string, c: char)
    requires c !in a
    ensures IndexOf(a + b, c) == |a| + IndexOf(b, c)
  {
    if a == [] {
      assert a + b == b;
    } else {
      assert (a + b)[0] == a[0] && (a + b)[1..] == a[1..] + b;
      assert c !in a[1..];
      IndexOfAfterPrefix(a[1..], b, c);
    }
  }

  // ---------------------------------------------------------------------
  // file.readlines() and str.strip()
  // ---------------------------------------------------------------------

  function Concat(ls: seq<string>): string
  {
    if ls == [] then [] else ls[0] + Concat(ls[1..])
  }

  /**
   * file.readlines(): the text cut after every '\n'; a last line without a
   * terminator is kept, and an empty text has no lines.
   */
  function Lines(s: string): (ls: seq<string>)
    ensures Concat(ls) == s
    ensures forall k :: 0 <= k < |ls| ==> ls[k] != []
    decreases |s|
  {
    if s == [] then []
    else
      var i := IndexOf(s, '\n');
      if i == |s| then [s]
      else
        var rest := Lines(s[i + 1..]);
        assert ([s[..i + 1]] + rest)[1..] == rest;
        assert s[..i + 1] + s[i + 1..] == s;
        [s[..i + 1]] + rest
  }

  /** Every line but the last ends in '\n', and no line has a '\n' before its end. */
  predicate BreaksAtNewlines(ls: seq<string>)
  {
    (forall k :: 0 <= k < |ls| ==> ls[k] != [] && '\n' !in ls[k][..|ls[k]| - 1])
    && forall k :: 0 <= k < |ls| - 1 ==> ls[k] != [] && ls[k][|ls[k]| - 1] == '\n'
  }

  /** readlines cuts exactly after each '\n'. */
  lemma {:induction false} LinesBreakAtNewlines(s: string)
    ensures BreaksAtNewlines(Lines(s))
    decreases |s|
  {
    if s != [] {
      var i := IndexOf(s, '\n');
      if i == |s| {
        assert Lines(s) == [s];
        assert s[..|s| - 1] == s[..i][..|s| - 1];
      } else {
        var head, rest := s[..i + 1], Lines(s[i + 1..]);
        LinesBreakAtNewlines(s[i + 1..]);
        assert Lines(s) == [head] + rest;
        assert head[..|head| - 1] == s[..i];
        assert '\n' !in s[..i] by {
          forall j | 0 <= j < i ensures s[..i][j] != '\n' {
            assert s[..i][j] == s[j];
          }
        }
        var ls := Lines(s);
        forall k | 0 <= k < |ls| ensures ls[k] != [] && '\n' !in ls[k][..|ls[k]| - 1] {
          if k > 0 {
            assert ls[k] == rest[k - 1];
          }
        }
        forall k | 0 <= k < |ls| - 1 ensures ls[k] != [] && ls[k][|ls[k]| - 1] == '\n' {
          if k > 0 {
            assert ls[k] == rest[k - 1];
          }
        }
      }
    }
  }

  lemma LinesOfTerminated(a: string, rest: string)
    requires '\n' !in a
    ensures Lines(a + "\n" + rest) == [a + "\n"] + Lines(rest)
  {
    var s := a + "\n" + rest;
    assert s == a + ("\n" + rest);
    assert ("\n" + rest)[0] == '\n';
    IndexOfAfterPrefix(a, "\n" + rest, '\n');
    assert IndexOf(s, '\n') == |a|;
    assert s[..|a| + 1] == a + "\n";
    assert s[|a| + 1..] == rest;
  }

  /** The text with its leading whitespace removed. */
  function TrimStart(s: string): (r: string)
    ensures |r| <= |s| && r == s[|s| - |r|..]
    ensures forall i :: 0 <= i < |s| - |r| ==> IsWhitespace(s[i])
    ensures r == [] || !IsWhitespace(r[0])
  {
    if s != [] && IsWhitespace(s[0]) then TrimStart(s[1..]) else s
  }

  /** The text with its trailing whitespace removed. */
  function TrimEnd(s: string): (r: string)
    ensures |r| <= |s| && r == s[..|r|]
    ensures forall i :: |r| <= i < |s| ==> IsWhitespace(s[i])
    ensures r == [] || !IsWhitespace(r[|r| - 1])
  {
    if s != [] && IsWhitespace(s[|s| - 1]) then TrimEnd(s[..|s| - 1]) else s
  }

  /** str.strip() without arguments. */
  function Strip(s: string): (r: string)
    ensures var i := |s| - |TrimStart(s)|;
            i + |r| <= |s| && r == s[i..i + |r|]
            && (forall k :: 0 <= k < i ==> IsWhitespace(s[k]))
            && (forall k :: i + |r| <= k < |s| ==> IsWhitespace(s[k]))
    ensures r == [] || (!IsWhitespace(r[0]) && !IsWhitespace(r[|r| - 1]))
  {
    TrimmedSlice(s, TrimStart(s), TrimEnd(TrimStart(s)));
    TrimEnd(TrimStart(s))
  }

  /** A prefix r of a suffix t of s, followed in t by whitespace only, is a slice of s with only whitespace after it. */
  lemma TrimmedSlice(s: string, t: string, r: string)
    requires |t| <= |s| && t == s[|s| - |t|..]
    requires |r| <= |t| && r == t[..|r|]
    requires forall k :: |r| <= k < |t| ==> IsWhitespace(t[k])
    ensures var i := |s| - |t|;
            r == s[i..i + |r|] && forall k :: i + |r| <= k < |s| ==> IsWhitespace(s[k])
  {
    var i := |s| - |t|;
    forall j | 0 <= j < |r|
      ensures r[j] == s[i..i + |r|][j]
    {
      assert r[j] == t[j] == s[i + j];
    }
    forall k | i + |r| <= k < |s|
      ensures IsWhitespace(s[k])
    {
      assert s[k] == t[k - i];
    }
  }

  /** Text that starts and ends with a character strip() keeps is left alone. */
  lemma StripKeepsTrimmed(s: string)
    requires s != [] && !IsWhitespace(s[0]) && !IsWhitespace(s[|s| - 1])
    ensures Strip(s) == s
  {
  }

  lemma StripDropsNewline(s: string)
    requires s != [] && !IsWhitespace(s[0]) && !IsWhitespace(s[|s| - 1])
    ensures Strip(s + "\n") == s
  {
    assert (s + "\n")[..|s|] == s;
  }

  lemma StripDropsLeadingSpace(s: string)
    requires s != [] && !IsWhitespace(s[0]) && !IsWhitespace(s[|s| - 1])
    ensures Strip(" " + s) == s
  {
    assert (" " + s)[1..] == s;
  }

  // ---------------------------------------------------------------------
  // line.split(':')[1]
  // ---------------------------------------------------------------------

  /**
   * line.split(':')[1]: the text between the first ':' and the next one (or
   * the end), or None where the list has no index 1 because the line has no
   * ':' at all.
   */
  function SecondField(s: string): (r: Option<string>)
    ensures r.None? <==> ':' !in s
    ensures r.Some? ==> ':' !in r.value
    ensures r.Some? ==> var i := IndexOf(s, ':');
              i < |s| && r.value <= s[i + 1..]
              && (i + 1 + |r.value| == |s| || s[i + 1 + |r.value|] == ':')
  {
    var i := IndexOf(s, ':');
    if i == |s| then None
    else
      var rest := s[i + 1..];
      var j := IndexOf(rest, ':');
      assert rest[..j] <= rest;
      Some(rest[..j])
  }

  lemma SecondFieldOfLabelled(name: string, v: string)
    requires ':' !in name && ':' !in v
    ensures SecondField(name + ":" + v) == Some(v)
  {
    var s := name + ":" + v;
    assert s == name + (":" + v);
    assert (":" + v)[0] == ':';
    IndexOfAfterPrefix(name, ":" + v, ':');
    assert IndexOf(s, ':') == |name|;
    assert s[|name| + 1..] == v;
    assert IndexOf(v, ':') == |v|;
    assert v[..|v|] == v;
  }

  // ---------------------------------------------------------------------
  // float() on decimal text
  // ---------------------------------------------------------------------

  /** The natural number a run of decimal digits denotes. */
  function DigitsValue(s: string): nat
    requires AllDigits(s)
  {
    if s == [] then 0 else DigitsValue(s[..|s| - 1]) * 10 + DigitValue(s[|s| - 1])
  }

  /** The value of the digits after the decimal point: 0.d1d2… */
  function FractionValue(s: string): (v: real)
    requires AllDigits(s)
    ensures 0.0 <= v < 1.0
  {
    if s == [] then 0.0 else (DigitValue(s[0]) as real + FractionValue(s[1..])) / 10.0
  }

  /** Length of the run of digits at the start of s. */
  function DigitRun(s: string): (n: nat)
    ensures n <= |s| && AllDigits(s[..n])
    ensures n < |s| ==> !IsDigit(s[n])
  {
    if s != [] && IsDigit(s[0]) then
      var n := 1 + DigitRun(s[1..]);
      assert s[..n] == [s[0]] + s[1..][..n - 1];
      n
    else 0
  }

  lemma {:induction false} DigitRunOfDigits(d: string, rest: string)
    requires AllDigits(d) && (rest == [] || !IsDigit(rest[0]))
    ensures DigitRun(d + rest) == |d|
  {
    if d != [] {
      assert (d + rest)[1..] == d[1..] + rest;
      DigitRunOfDigits(d[1..], rest);
    }
  }

  /** Unsigned decimal text: digits, optionally '.' and more digits, with a digit on at least one side. */
  function ParseUnsigned(s: string): (r: Option<real>)
    ensures r.Some? ==> forall i :: 0 <= i < |s| ==> IsDigit(s[i]) || s[i] == '.'
    ensures r.Some? ==> r.value >= 0.0
  {
    var n := DigitRun(s);
    var whole := s[..n];
    if n == |s| then
      if n == 0 then None else Some(DigitsValue(whole) as real)
    else if s[n] != '.' then None
    else
      var frac := s[n + 1..];
      if !AllDigits(frac) || (n == 0 && frac == []) then None
      else
        assert forall i :: n + 1 <= i < |s| ==> s[i] == frac[i - (n + 1)];
        Some(DigitsValue(whole) as real + FractionValue(frac))
  }

  /**
   * float(text) on the decimal subset: an optional sign, then unsigned
   * decimal text; None stands for the ValueError float() raises.
   */
  function ParseFloat(s: string): (r: Option<real>)
    ensures r.Some? ==> s != [] && forall i :: 0 <= i < |s| ==> IsNumberChar(s[i])
  {
    if s != [] && (s[0] == '+' || s[0] == '-') then
      match ParseUnsigned(s[1..])
      case None => None
      case Some(v) =>
        assert forall i :: 1 <= i < |s| ==> s[i] == s[1..][i - 1];
        Some(if s[0] == '-' then -v else v)
    else
      ParseUnsigned(s)
  }

  // ---------------------------------------------------------------------
  // Decimal text for a coefficient
  // ---------------------------------------------------------------------

  /** ±whole.fraction with the fraction given digit by digit. */
  datatype Decimal = Decimal(negative: bool, whole: nat, fraction: string)

  predicate ValidDecimal(d: Decimal)
  {
    AllDigits(d.fraction)
  }

  function DecimalValue(d: Decimal): real
    requires ValidDecimal(d)
  {
    var magnitude := d.whole as real + FractionValue(d.fraction);
    if d.negative then -magnitude else magnitude
  }

  /** The shortest decimal digits of n, "0" for zero. */
  function NaturalText(n: nat): (s: string)
    ensures s != [] && AllDigits(s)
    ensures DigitsValue(s) == n
  {
    if n < 10 then
      [DigitChar(n)]
    else
      var s := NaturalText(n / 10) + [DigitChar(n % 10)];
      assert s[..|s| - 1] == NaturalText(n / 10);
      s
  }

  /** The text written for a decimal: sign if negative, whole part, and the fraction after '.'. */
  function DecimalText(d: Decimal): string
    requires ValidDecimal(d)
  {
    (if d.negative then "-" else "") + NaturalText(d.whole) + (if d.fraction == [] then "" else "." + d.fraction)
  }

  lemma UnsignedDecimalRoundTrip(whole: nat, fraction: string)
    requires AllDigits(fraction)
    ensures ParseUnsigned(NaturalText(whole) + (if fraction == [] then "" else "." + fraction))
         == Some(whole as real + FractionValue(fraction))
  {
    hide NaturalText;
    hide DigitsValue;
    hide DigitRun;
    var w := NaturalText(whole);
    if fraction == [] {
      DigitRunOfDigits(w, []);
      assert w + [] == w && w[..|w|] == w;
    } else {
      hide FractionValue;
      var s := w + ("." + fraction);
      DigitRunOfDigits(w, "." + fraction);
      assert s[..|w|] == w;
      assert s[|w|] == '.';
      assert s[|w| + 1..] == fraction;
    }
  }

  /** float() reads back exactly the value the decimal text was written for. */
  lemma DecimalRoundTrip(d: Decimal)
    requires ValidDecimal(d)
    ensures ParseFloat(DecimalText(d)) == Some(DecimalValue(d))
  {
    hide ParseUnsigned;
    hide NaturalText;
    hide FractionValue;
    var u := NaturalText(d.whole) + (if d.fraction == [] then "" else "." + d.fraction);
    UnsignedDecimalRoundTrip(d.whole, d.fraction);
    assert IsDigit(u[0]);
    if d.negative {
      assert DecimalText(d) == "-" + u;
      NegatedRoundTrip(u, d.whole as real + FractionValue(d.fraction));
    } else {
      assert DecimalText(d) == u;
    }
  }

  lemma NegatedRoundTrip(u: string, v: real)
    requires ParseUnsigned(u) == Some(v)
    ensures ParseFloat("-" + u) == Some(-v)
  {
    assert ("-" + u)[1..] == u;
  }

  // ---------------------------------------------------------------------
  // Writing and reading the coefficient file
  // ---------------------------------------------------------------------

  /** save_coefficients_to_file: "w_final: <w>\n" then "b_final: <b>\n", given the texts of w and b. */
  function CoefficientFile(wText: string, bText: string): string
  {
    "w_final: " + wText + "\n" + "b_final: " + bText + "\n"
  }

  /** What reading the file yields: the two coefficients, or the exception raised. */
  datatype LoadResult = Loaded(w: real, b: real) | ValueError | IndexError

  /** What one coefficient line yields: its value, or the exception raised while reading it. */
  datatype LineResult = Value(v: real) | LineValueError | LineIndexError

  /** One coefficient line: strip it, take split(':')[1], strip that and convert it with float(). */
  function LineValue(line: string): (r: LineResult)
    ensures r.LineIndexError? <==> ':' !in Strip(line)
    ensures r.Value? ==> ParseFloat(Strip(SecondField(Strip(line)).value)) == Some(r.v)
    ensures ':' in Strip(line) && ParseFloat(Strip(SecondField(Strip(line)).value)).Some? ==>
              r == Value(ParseFloat(Strip(SecondField(Strip(line)).value)).value)
  {
    match SecondField(Strip(line))
    case None => LineIndexError
    case Some(field) =>
      match ParseFloat(Strip(field))
      case None => LineValueError
      case Some(v) => Value(v)
  }

  /**
   * load_coefficients_from_file on the text of the file: exactly two lines,
   * the first giving w and the second b, read in that order, so an
   * exception from the first line wins; the labels before ':' are not
   * checked.
   */
  function LoadCoefficients(text: string): (r: LoadResult)
    ensures |Lines(text)| != 2 ==> r == ValueError
    ensures |Lines(text)| == 2 && ':' !in Strip(Lines(text)[0]) ==> r == IndexError
    ensures |Lines(text)| == 2 && LineValue(Lines(text)[0]).LineValueError? ==> r == ValueError
    ensures |Lines(text)| == 2 && LineValue(Lines(text)[0]).Value? && ':' !in Strip(Lines(text)[1]) ==> r == IndexError
    ensures |Lines(text)| == 2 && LineValue(Lines(text)[0]).Value? && LineValue(Lines(text)[1]).LineValueError? ==>
              r == ValueError
    ensures |Lines(text)| == 2 && LineValue(Lines(text)[0]).Value? && LineValue(Lines(text)[1]).Value? ==>
              r == Loaded(LineValue(Lines(text)[0]).v, LineValue(Lines(text)[1]).v)
    ensures r.Loaded? ==> (LineValue(Lines(text)[0]) == Value(r.w) && LineValue(Lines(text)[1]) == Value(r.b))
    ensures r.IndexError? ==> |Lines(text)| == 2 && (':' !in Strip(Lines(text)[0]) || ':' !in Strip(Lines(text)[1]))
  {
    var lines := Lines(text);
    if |lines| != 2 then ValueError
    else
      match LineValue(lines[0])
      case LineIndexError => IndexError
      case LineValueError => ValueError
      case Value(w) =>
        match LineValue(lines[1])
        case LineIndexError => IndexError
        case LineValueError => ValueError
        case Value(b) => Loaded(w, b)
  }

  /** Text float() accepts holds no whitespace, no ':' and no line break. */
  lemma NumberTextIsPlain(t: string, v: real)
    requires ParseFloat(t) == Some(v)
    ensures t != [] && !IsWhitespace(t[0]) && !IsWhitespace(t[|t| - 1])
    ensures ':' !in t && '\n' !in t
  {
  }

  lemma WrittenLineValue(name: string, t: string, v: real)
    requires ':' !in name && name != [] && !IsWhitespace(name[0])
    requires ParseFloat(t) == Some(v)
    ensures LineValue(name + ": " + t + "\n") == Value(v)
  {
    NumberTextIsPlain(t, v);
    var line := name + ": " + t;
    assert name + ": " + t + "\n" == line + "\n";
    assert line[0] == name[0] && line[|line| - 1] == t[|t| - 1];
    StripDropsNewline(line);
    assert line == name + ":" + (" " + t);
    SecondFieldOfLabelled(name, " " + t);
    StripDropsLeadingSpace(t);
  }

  /**
   * What the training side writes, the prediction side reads back: when
   * float() reads each coefficient's text as the coefficient, loading the
   * file gives the same w and b.
   */
  lemma SaveLoadRoundTrip(wText: string, bText: string, w: real, b: real)
    requires ParseFloat(wText) == Some(w) && ParseFloat(bText) == Some(b)
    ensures LoadCoefficients(CoefficientFile(wText, bText)) == Loaded(w, b)
  {
    hide Lines;
    hide ParseFloat;
    hide LoadCoefficients;
    hide LineValue;
    hide CoefficientFile;
    NumberTextIsPlain(wText, w);
    NumberTextIsPlain(bText, b);
    WrittenLines(wText, bText);
    WrittenLineValue("w_final", wText, w);
    WrittenLineValue("b_final", bText, b);
    LoadOfLines(CoefficientFile(wText, bText), "w_final" + ": " + wText + "\n", "b_final" + ": " + bText + "\n", w, b);
  }

  lemma LoadOfLines(text: string, first: string, second: string, w: real, b: real)
    requires Lines(text) == [first, second]
    requires LineValue(first) == Value(w) && LineValue(second) == Value(b)
    ensures LoadCoefficients(text) == Loaded(w, b)
  {
  }

  /** The writer's text reads back as its two lines. */
  lemma WrittenLines(wText: string, bText: string)
    requires '\n' !in wText && '\n' !in bText
    ensures Lines(CoefficientFile(wText, bText)) == ["w_final" + ": " + wText + "\n", "b_final" + ": " + bText + "\n"]
  {
    var wLine := "w_final" + ": " + wText;
    var bLine := "b_final" + ": " + bText;
    assert CoefficientFile(wText, bText) == wLine + "\n" + (bLine + "\n");
    TwoLines(wLine, bLine);
  }

  lemma TwoLines(a: string, c: string)
    requires '\n' !in a && '\n' !in c
    ensures Lines(a + "\n" + (c + "\n")) == [a + "\n", c + "\n"]
  {
    LinesOfTerminated(a, c + "\n");
    OneLine(c);
  }

  lemma OneLine(c: string)
    requires '\n' !in c
    ensures Lines(c + "\n") == [c + "\n"]
  {
    assert Lines("") == [];
    assert c + "\n" == c + "\n" + "";
    LinesOfTerminated(c, "");
  }

  /** A coefficient file written with decimal text loads back the decimals' values. */
  lemma DecimalFileRoundTrip(w: Decimal, b: Decimal)
    requires ValidDecimal(w) && ValidDecimal(b)
    ensures LoadCoefficients(CoefficientFile(DecimalText(w), DecimalText(b))) == Loaded(DecimalValue(w), DecimalValue(b))
  {
    DecimalRoundTrip(w);
    DecimalRoundTrip(b);
    SaveLoadRoundTrip(DecimalText(w), DecimalText(b), DecimalValue(w), DecimalValue(b));
  }
}
