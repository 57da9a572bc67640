/** The text rules of the stat panels (UIPropertyDisplay): field names are prettified
    ("moveSpeed" becomes "Move Speed"), and each shown field contributes one name line and
    one value line, where a ranged float is shown as a signed percentage change. */
module PropertyDisplay {
  import opened Common

  /** Character classes, on ASCII. */
  predicate IsWhiteSpace(c: char)
  {
    c == ' ' || '\t' <= c <= '\r'
  }

  predicate IsUpper(c: char)
  {
    'A' <= c <= 'Z'
  }

  function ToUpper(c: char): (u: char)
    ensures IsWhiteSpace(u) <==> IsWhiteSpace(c)
    ensures u == '\0' <==> c == '\0'
    ensures !('a' <= c <= 'z') ==> u == c
  {
    if 'a' <= c <= 'z' then (c as int - 32) as char else c
  }

  /** Position i starts a word: it is the first one, or follows whitespace or a NUL (the
      loop's "no previous character" marker). */
  predicate StartsWord(s: string, i: int)
    requires 0 <= i < |s|
  {
    i == 0 || s[i - 1] == '\0' || IsWhiteSpace(s[i - 1])
  }

  /** A space goes in before position i: an upper-case letter inside a word. */
  predicate InsertsSpace(s: string, i: int)
    requires 0 <= i < |s|
  {
    !StartsWord(s, i) && IsUpper(s[i])
  }

  /** Character i, upper-cased when it starts a word. */
  function CasedAt(s: string, i: int): char
    requires 0 <= i < |s|
  {
    if StartsWord(s, i) then ToUpper(s[i]) else s[i]
  }

  /** What position i contributes to the output. */
  function Piece(s: string, i: int): string
    requires 0 <= i < |s|
  {
    if StartsWord(s, i) then [ToUpper(s[i])]
    else if IsUpper(s[i]) then [' ', s[i]]
    else [s[i]]
  }

  /** The prettified first n characters. */
  function PrettyUpTo(s: string, n: nat): string
    requires n <= |s|
  {
    if n == 0 then [] else PrettyUpTo(s, n - 1) + Piece(s, n - 1)
  }

  function Pretty(s: string): string
  {
    PrettyUpTo(s, |s|)
  }

  /** The number of spaces inserted among the first n characters. */
  function InsertedUpTo(s: string, n: nat): nat
    requires n <= |s|
  {
    if n == 0 then 0 else InsertedUpTo(s, n - 1) + (if InsertsSpace(s, n - 1) then 1 else 0)
  }

  /** The prettified text is as long as the input plus the inserted spaces. */
  lemma {:induction false} PrettyLength(s: string, n: nat)
    requires n <= |s|
    ensures |PrettyUpTo(s, n)| == n + InsertedUpTo(s, n)
  {
    if n > 0 {
      PrettyLength(s, n - 1);
    }
  }

  /** Where each input character lands: character i is found, upper-cased if it starts a
      word, after the i characters and the spaces inserted up to and including it; when a
      space is inserted for it, that space sits just before it. So the output is the input,
      word starts upper-cased, with exactly the inserted spaces added. */
  lemma {:induction false} PrettyPositions(s: string, n: nat, i: nat)
    requires i < n <= |s|
    ensures |PrettyUpTo(s, n)| == n + InsertedUpTo(s, n)
    ensures i + InsertedUpTo(s, i + 1) < |PrettyUpTo(s, n)|
    ensures PrettyUpTo(s, n)[i + InsertedUpTo(s, i + 1)] == CasedAt(s, i)
    ensures InsertsSpace(s, i) ==> PrettyUpTo(s, n)[i + InsertedUpTo(s, i)] == ' '
  {
    PrettyLength(s, n);
    PrettyLength(s, n - 1);
    var p, pc := PrettyUpTo(s, n - 1), Piece(s, n - 1);
    assert PrettyUpTo(s, n) == p + pc;
    if i < n - 1 {
      PrettyPositions(s, n - 1, i);
      InsertedMonotone(s, i + 1, n - 1);
    }
  }

  lemma {:induction false} InsertedMonotone(s: string, m: nat, n: nat)
    requires m <= n <= |s|
    ensures InsertedUpTo(s, m) <= InsertedUpTo(s, n)
    decreases n - m
  {
    if m < n {
      InsertedMonotone(s, m, n - 1);
    }
  }

  /** The first character of a prettified text is the input's first, upper-cased. */
  lemma {:induction false} PrettyStartsUpper(s: string, n: nat)
    requires 0 < n <= |s|
    ensures |PrettyUpTo(s, n)| > 0 && PrettyUpTo(s, n)[0] == ToUpper(s[0])
  {
    if n > 1 {
      PrettyStartsUpper(s, n - 1);
    }
  }

  /** PrettifyNames: nothing for an empty input; otherwise the loop upper-cases a character
      following the start or whitespace, and puts a space before an upper-case one elsewhere. */
  method PrettifyNames(input: string) returns (r: Option<string>)
    ensures input == [] ==> r == None
    ensures input != [] ==> r == Some(Pretty(input))
  {
    if |input| <= 0 {
      return None;
    }
    var result := [];
    var last := '\0';
    for i := 0 to |input|
      invariant result == PrettyUpTo(input, i)
      invariant i == 0 ==> last == '\0'
      invariant i > 0 ==> (last == '\0' <==> input[i - 1] == '\0') && (IsWhiteSpace(last) <==> IsWhiteSpace(input[i - 1]))
    {
      var c := input[i];
      if last == '\0' || IsWhiteSpace(last) {
        c := ToUpper(c);
      } else if IsUpper(c) {
        result := result + [' '];
      }
      result := result + [c];
      last := c;
    }
    return Some(result);
  }

  /** Decimal digits. */
  function DigitChar(d: nat): char
    requires d < 10
  {
    ('0' as int + d) as char
  }

  predicate IsDigit(c: char)
  {
    '0' <= c <= '9'
  }

  function DigitValue(c: char): nat
    requires IsDigit(c)
  {
    c as int - '0' as int
  }

  function NatToString(n: nat): (s: string)
    ensures |s| > 0 && forall i :: 0 <= i < |s| ==> IsDigit(s[i])
  {
    if n < 10 then [DigitChar(n)] else NatToString(n / 10) + [DigitChar(n % 10)]
  }

  /** int.ToString: a minus sign before the digits of a negative value. */
  function IntToString(i: int): string
  {
    if i < 0 then "-" + NatToString(-i) else NatToString(i)
  }

  /** Reads decimal digits back. */
  function ParseDigits(s: string): nat
    requires forall i :: 0 <= i < |s| ==> IsDigit(s[i])
  {
    if s == [] then 0 else ParseDigits(s[..|s| - 1]) * 10 + DigitValue(s[|s| - 1])
  }

  /** The digits written for n read back as n. */
  lemma {:induction false} NatToStringRoundTrip(n: nat)
    ensures ParseDigits(NatToString(n)) == n
  {
    if n >= 10 {
      NatToStringRoundTrip(n / 10);
      var s := NatToString(n / 10) + [DigitChar(n % 10)];
      assert s[..|s| - 1] == NatToString(n / 10);
    }
  }

  /** Mathf.Round: to the nearest integer, halves to the even neighbour. */
  function RoundHalfEven(x: real): (r: int)
    ensures x - 0.5 <= r as real <= x + 0.5
    ensures x - (x.Floor as real) == 0.5 ==> r % 2 == 0
    ensures x == (x.Floor as real) ==> r == x.Floor
  {
    var f := x.Floor;
    var frac := x - f as real;
    if frac < 0.5 then f
    else if frac > 0.5 then f + 1
    else if f % 2 == 0 then f
    else f + 1
  }

  /** A value handed to ProcessValue: an int, a float, or anything else with its text. */
  datatype FieldValue = IntValue(i: int) | FloatValue(f: real) | OtherValue(text: string)

  /** The number ProcessValue reads: ints and floats as themselves, anything else as 0. */
  function NumericValue(v: FieldValue): real
  {
    match v
    case IntValue(i) => i as real
    case FloatValue(f) => f
    case OtherValue(_) => 0.0
  }

  /** StringBuilder.Append(object): ints in decimal; floats by `floatText` (float formatting
      is not part of this model); anything else by its text. */
  function ValueText(v: FieldValue, floatText: real -> string): string
  {
    match v
    case IntValue(i) => IntToString(i)
    case FloatValue(f) => floatText(f)
    case OtherValue(t) => t
  }

  /** The line for a percentage change p: a dash for no change, otherwise the change with a
      '+' before a rise, then '%'. */
  function PercentLine(p: int): string
  {
    if p == 0 then "-\n"
    else (if p > 0 then "+" else "") + IntToString(p) + "%\n"
  }

  /** A percentage line shows its sign and reads back as its magnitude: a dash exactly for
      no change, a leading '+' exactly for a rise, a leading '-' for a fall, and between the
      sign and the closing "%\n" the digits of |p|. */
  lemma PercentLineReadsBack(p: int)
    ensures PercentLine(p) == "-\n" <==> p == 0
    ensures |PercentLine(p)| >= 2 && (PercentLine(p)[0] == '+' <==> p > 0)
    ensures p < 0 ==> PercentLine(p)[0] == '-'
    ensures p != 0 ==>
              var t := PercentLine(p);
              |t| >= 4 && t[|t| - 2..] == "%\n"
              && (forall i :: 1 <= i < |t| - 2 ==> IsDigit(t[i]))
              && ParseDigits(t[1..|t| - 2]) == (if p < 0 then -p else p)
  {
    if p != 0 {
      var m: nat := if p < 0 then -p else p;
      var digits := NatToString(m);
      NatToStringRoundTrip(m);
      var t := PercentLine(p);
      assert t == [if p > 0 then '+' else '-'] + digits + "%\n";
      assert t[1..|t| - 2] == digits;
      assert IsDigit(t[1]);
    }
  }

  /** ProcessName: a hidden field leaves the names untouched; a shown one appends its name
      as one line. */
  function ProcessName(shown: bool, name: string, output: string): (r: string)
    ensures output <= r
    ensures !shown ==> r == output
    ensures shown ==> r[|output|..] == name + "\n"
  {
    if !shown then output else output + name + "\n"
  }

  function CountLines(s: string): nat
  {
    if s == [] then 0 else CountLines(s[..|s| - 1]) + (if s[|s| - 1] == '\n' then 1 else 0)
  }

  lemma {:induction false} CountLinesConcat(a: string, b: string)
    ensures CountLines(a + b) == CountLines(a) + CountLines(b)
    decreases |b|
  {
    if b != [] {
      var b' := b[..|b| - 1];
      CountLinesConcat(a, b');
      var ab := a + b;
      assert ab[..|ab| - 1] == a + b';
      assert ab[|ab| - 1] == b[|b| - 1];
      assert CountLines(ab) == CountLines(a + b') + (if b[|b| - 1] == '\n' then 1 else 0);
      assert CountLines(b) == CountLines(b') + (if b[|b| - 1] == '\n' then 1 else 0);
    } else {
      assert a + b == a;
    }
  }

  /** A shown name whose text has no line break adds exactly one line. */
  lemma ProcessNameAddsOneLine(shown: bool, name: string, output: string)
    requires forall i :: 0 <= i < |name| ==> name[i] != '\n'
    ensures CountLines(ProcessName(shown, name, output)) == CountLines(output) + (if shown then 1 else 0)
  {
    if shown {
      NoBreaksNoLines(name);
      assert output + name + "\n" == output + (name + "\n");
      CountLinesConcat(output, name + "\n");
      CountLinesConcat(name, "\n");
      assert "\n"[..0] == [];
    }
  }

  lemma {:induction false} NoBreaksNoLines(s: string)
    requires forall i :: 0 <= i < |s| ==> s[i] != '\n'
    ensures CountLines(s) == 0
  {
    if s != [] {
      NoBreaksNoLines(s[..|s| - 1]);
    }
  }

  /** ProcessValue: a hidden field leaves the values untouched. A shown float field with a
      Range or Min attribute appends the percentage line of round(v*100 - 100); any other
      shown field appends its value and a line break. */
  function ProcessValue(shown: bool, value: FieldValue, hasRangeOrMin: bool, isFloatField: bool,
                        output: string, floatText: real -> string): (r: string)
    ensures output <= r
    ensures !shown ==> r == output
    ensures shown && hasRangeOrMin && isFloatField ==>
              r[|output|..] == PercentLine(RoundHalfEven(NumericValue(value) * 100.0 - 100.0))
    ensures shown && !(hasRangeOrMin && isFloatField) ==> r[|output|..] == ValueText(value, floatText) + "\n"
  {
    if !shown then output
    else
      var fval := NumericValue(value);
      if hasRangeOrMin && isFloatField then
        var percentage := RoundHalfEven(fval * 100.0 - 100.0);
        output + PercentLine(percentage)
      else output + ValueText(value, floatText) + "\n"
  }

  /** A percentage line is one line. */
  lemma PercentLineIsOneLine(p: int)
    ensures CountLines(PercentLine(p)) == 1
  {
    PercentLineReadsBack(p);
    var t := PercentLine(p);
    var body := t[..|t| - 1];
    assert t == body + "\n";
    CountLinesConcat(body, "\n");
    assert "\n"[..0] == [];
    if p != 0 {
      forall i | 0 <= i < |body|
        ensures body[i] != '\n'
      {
        if i >= 1 && i < |t| - 2 {
          assert IsDigit(t[i]);
        }
      }
    } else {
      assert body == "-";
    }
    NoBreaksNoLines(body);
  }

  /** A ranged float shows a dash exactly when it rounds to no change (1.0 does), a '+'
      line when it rounds to a rise; in both cases exactly one line is added. */
  lemma RangedValueLine(value: FieldValue, output: string, floatText: real -> string)
    ensures var r := ProcessValue(true, value, true, true, output, floatText);
            var p := RoundHalfEven(NumericValue(value) * 100.0 - 100.0);
            (r[|output|..] == "-\n" <==> p == 0)
            && (r[|output|] == '+' <==> p > 0)
            && CountLines(r) == CountLines(output) + 1
    ensures NumericValue(value) == 1.0 ==> ProcessValue(true, value, true, true, output, floatText) == output + "-\n"
  {
    var p := RoundHalfEven(NumericValue(value) * 100.0 - 100.0);
    PercentLineReadsBack(p);
    PercentLineIsOneLine(p);
    CountLinesConcat(output, PercentLine(p));
    var r := ProcessValue(true, value, true, true, output, floatText);
    assert r == output + PercentLine(p);
    assert r[|output|..] == PercentLine(p);
    assert r[|output|] == PercentLine(p)[0];
  }
}
