/**
 * The PHP string built-ins that the generators rely on: `str_repeat(' ', n)`,
 * `implode`, `chop` with a newline character list, and the decimal rendering
 * of an integer by `(string)$int`. The line terminator `PHP_EOL` is fixed to
 * "\n" throughout.
 */
module PhpStrings {

  /** `str_repeat(' ', n)` */
  function Spaces(n: nat): (r: string)
    ensures |r| == n
    ensures forall i :: 0 <= i < n ==> r[i] == ' '
  {
    if n == 0 then "" else Spaces(n - 1) + " "
  }

  lemma {:induction false} SpacesAdd(m: nat, n: nat)
    ensures Spaces(m) + Spaces(n) == Spaces(m + n)
  {
    if n > 0 {
      SpacesAdd(m, n - 1);
      assert Spaces(m + n) == Spaces(m + n - 1) + " ";
      assert Spaces(m) + Spaces(n) == (Spaces(m) + Spaces(n - 1)) + " ";
    }
  }

  /** `implode(sep, xs)`: the items in order, with `sep` between neighbours. */
  function Join(sep: string, xs: seq<string>): string
  {
    if |xs| == 0 then ""
    else if |xs| == 1 then xs[0]
    else xs[0] + sep + Join(sep, xs[1..])
  }

  /** `implode` gives "" for no items, and otherwise starts with the first item and ends with the last. */
  lemma {:induction false} JoinEnds(sep: string, xs: seq<string>)
    ensures |xs| == 0 ==> Join(sep, xs) == ""
    ensures |xs| > 0 ==> xs[0] <= Join(sep, xs) && EndsWith(Join(sep, xs), xs[|xs| - 1])
  {
    if |xs| > 1 {
      JoinEnds(sep, xs[1..]);
      EndsWithAppend(xs[0] + sep, Join(sep, xs[1..]), xs[|xs| - 1], "");
      assert xs[0] + sep + Join(sep, xs[1..]) + "" == Join(sep, xs);
    }
  }

  /** Appending one more item to a non-empty list adds the separator and the item. */
  lemma {:induction false} JoinSnoc(sep: string, xs: seq<string>, x: string)
    requires |xs| > 0
    ensures Join(sep, xs + [x]) == Join(sep, xs) + sep + x
  {
    if |xs| == 1 {
      assert (xs + [x])[1..] == [x];
    } else {
      assert (xs + [x])[1..] == xs[1..] + [x];
      JoinSnoc(sep, xs[1..], x);
    }
  }

  /** Joining one more item of a list from the left. */
  lemma JoinPrefix(sep: string, xs: seq<string>, k: nat)
    requires 1 <= k < |xs|
    ensures Join(sep, xs[..k + 1]) == Join(sep, xs[..k]) + sep + xs[k]
  {
    assert xs[..k + 1] == xs[..k] + [xs[k]];
    JoinSnoc(sep, xs[..k], xs[k]);
  }

  lemma JoinTwo(sep: string, a: string, b: string)
    ensures Join(sep, [a, b]) == a + sep + b
  {
    assert [a, b][1..] == [b];
  }

  lemma JoinOne(sep: string, xs: seq<string>)
    requires 1 <= |xs|
    ensures Join(sep, xs[..1]) == xs[0]
  {
    assert xs[..1] == [xs[0]];
  }

  lemma AppendAssoc(a: string, b: string, c: string)
    ensures a + b + c == a + (b + c)
  {
  }

  /** One more line written after a newline is one more line joined by a newline. */
  lemma JoinExtend(prev: string, joinedPrev: string, line: string, next: string, joinedNext: string)
    requires prev == "\n" + joinedPrev
    requires next == prev + "\n" + line
    requires joinedNext == joinedPrev + "\n" + line
    ensures next == "\n" + joinedNext
  {
  }

  /** The concatenation of a list of texts, in order. */
  function Concat(xs: seq<string>): string
  {
    if |xs| == 0 then "" else xs[0] + Concat(xs[1..])
  }

  lemma {:induction false} ConcatSnoc(xs: seq<string>, x: string)
    ensures Concat(xs + [x]) == Concat(xs) + x
  {
    if |xs| == 0 {
      assert [x][1..] == [];
    } else {
      assert (xs + [x])[1..] == xs[1..] + [x];
      ConcatSnoc(xs[1..], x);
    }
  }

  lemma ConcatPrefix(xs: seq<string>, k: nat)
    requires k < |xs|
    ensures Concat(xs[..k + 1]) == Concat(xs[..k]) + xs[k]
  {
    assert xs[..k + 1] == xs[..k] + [xs[k]];
    ConcatSnoc(xs[..k], xs[k]);
  }

  /** Each item followed by a newline. */
  function Terminated(xs: seq<string>): seq<string>
  {
    seq(|xs|, i requires 0 <= i < |xs| => xs[i] + "\n")
  }

  /** Writing each line with its newline, then a last line, is joining all the lines by newlines. */
  lemma {:induction false} TerminatedJoin(xs: seq<string>, last: string)
    ensures Concat(Terminated(xs)) + last == Join("\n", xs + [last])
  {
    if |xs| == 0 {
      assert xs + [last] == [last];
    } else {
      assert Terminated(xs)[1..] == Terminated(xs[1..]);
      assert (xs + [last])[1..] == xs[1..] + [last];
      TerminatedJoin(xs[1..], last);
    }
  }

  /**
   * `chop(s, "\n")`: removes every trailing newline. The result is a prefix
   * of `s` that does not end in a newline, and what was removed is newlines only.
   */
  function ChopNewlines(s: string): (r: string)
    ensures r <= s
    ensures |r| == 0 || r[|r| - 1] != '\n'
    ensures forall i :: |r| <= i < |s| ==> s[i] == '\n'
  {
    if |s| > 0 && s[|s| - 1] == '\n' then ChopNewlines(s[..|s| - 1]) else s
  }

  /** Trailing newlines of `a + b` all come from `b` when `b` holds some other character. */
  lemma {:induction false} ChopAppend(a: string, b: string, j: nat)
    requires j < |b| && b[j] != '\n'
    ensures ChopNewlines(a + b) == a + ChopNewlines(b)
  {
    if b[|b| - 1] == '\n' {
      assert (a + b)[..|a + b| - 1] == a + b[..|b| - 1];
      ChopAppend(a, b[..|b| - 1], j);
    }
  }

  predicate EndsWith(s: string, suffix: string)
  {
    |suffix| <= |s| && s[|s| - |suffix|..] == suffix
  }

  lemma EndsWithAppend(a: string, b: string, end: string, tail: string)
    requires EndsWith(b, end)
    ensures EndsWith(a + b + tail, end + tail)
  {
    var r := a + b + tail;
    assert r[|r| - |end + tail|..] == b[|b| - |end|..] + tail;
  }

  predicate IsDigit(c: char)
  {
    '0' <= c <= '9'
  }

  function DigitValue(c: char): (d: nat)
    requires IsDigit(c)
    ensures d < 10
  {
    c as int - '0' as int
  }

  function DigitChar(d: nat): (c: char)
    requires d < 10
    ensures IsDigit(c) && DigitValue(c) == d
  {
    ('0' as int + d) as char
  }

  /** `(string)$n` for a non-negative integer: its decimal digits. */
  function NatToText(n: nat): (r: string)
  {
    if n < 10 then [DigitChar(n)] else NatToText(n / 10) + [DigitChar(n % 10)]
  }

  /** `(string)$i` for an integer. */
  function IntToText(i: int): (r: string)
    ensures i >= 0 ==> IsDecimalKey(r) && DecimalValue(r) == i
    ensures i < 0 ==> |r| > 1 && r[0] == '-' && IsDecimalKey(r[1..]) && DecimalValue(r[1..]) == -i
  {
    if i < 0 then
      NatToTextRoundTrip(-i);
      assert ("-" + NatToText(-i))[1..] == NatToText(-i);
      "-" + NatToText(-i)
    else
      NatToTextRoundTrip(i);
      NatToText(i)
  }

  /**
   * A string that PHP turns into an integer array key of at least zero:
   * decimal digits without a sign and without a leading zero.
   */
  predicate IsDecimalKey(s: string)
  {
    && |s| > 0
    && (forall i :: 0 <= i < |s| ==> IsDigit(s[i]))
    && (s[0] == '0' ==> |s| == 1)
  }

  /** The number written by a string of decimal digits. */
  function DecimalValue(s: string): nat
    requires forall i :: 0 <= i < |s| ==> IsDigit(s[i])
  {
    if |s| == 0 then 0
    else DecimalValue(s[..|s| - 1]) * 10 + DigitValue(s[|s| - 1])
  }

  /** The text of a natural number is a decimal key that reads back as that number. */
  lemma {:induction false} NatToTextRoundTrip(n: nat)
    ensures IsDecimalKey(NatToText(n))
    ensures DecimalValue(NatToText(n)) == n
  {
    var r := NatToText(n);
    if n >= 10 {
      NatToTextRoundTrip(n / 10);
      var t := NatToText(n / 10);
      assert r == t + [DigitChar(n % 10)];
      assert r[..|r| - 1] == t;
      assert r[0] == t[0];
    }
  }

  lemma {:induction false} LeadingDigitPositive(s: string)
    requires IsDecimalKey(s) && s[0] != '0'
    ensures DecimalValue(s) >= 1
  {
    if |s| > 1 {
      var t := s[..|s| - 1];
      assert t[0] == s[0];
      LeadingDigitPositive(t);
    }
  }

  /** Every decimal key is the text of the number it denotes. */
  lemma {:induction false} DecimalKeyRoundTrip(s: string)
    requires IsDecimalKey(s)
    ensures NatToText(DecimalValue(s)) == s
  {
    if |s| > 1 {
      var t := s[..|s| - 1];
      assert t[0] == s[0];
      LeadingDigitPositive(t);
      DecimalKeyRoundTrip(t);
      var d := DigitValue(s[|s| - 1]);
      var v := DecimalValue(s);
      assert v == DecimalValue(t) * 10 + d && 0 <= d < 10;
      assert v / 10 == DecimalValue(t) && v % 10 == d;
      assert DigitChar(d) == s[|s| - 1];
      assert s == t + [s[|s| - 1]];
    } else {
      assert s[..0] == "";
      assert DecimalValue(s) == DigitValue(s[0]);
      assert DigitChar(DigitValue(s[0])) == s[0];
    }
  }
}
