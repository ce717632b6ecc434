/**
 * The pieces of Python's string machinery that the budget app relies on:
 * fixed-width format fields, `"\n".join`, `str` of an integer, the
 * two-decimal and the natural text of an amount held in cents, and
 * `str.format` with `{}` fields. Each is a plain function; its partner
 * (an inverse or an independent description) is stated as a lemma.
 */
module Text {

  datatype Option<T> = None | Some(value: T)

  /** `c * n` for a one-character string `c`. */
  function Fill(c: char, n: nat): (r: string)
    ensures |r| == n
    ensures forall i :: 0 <= i < n ==> r[i] == c
  {
    seq(n, _ => c)
  }

  /** `"{:w.w}".format(s)`: truncated to `w`, then padded on the right with blanks. */
  function LeftField(s: string, w: nat): (r: string)
    ensures |r| == w
    ensures forall i :: 0 <= i < w ==> r[i] == if i < |s| then s[i] else ' '
  {
    if |s| >= w then s[..w] else s + Fill(' ', w - |s|)
  }

  /** `"{:>w.w}".format(s)`: truncated to `w`, then padded on the left with blanks. */
  function RightField(s: string, w: nat): (r: string)
    ensures |r| == w
    ensures |s| <= w ==> r[w - |s|..] == s && r[..w - |s|] == Fill(' ', w - |s|)
    ensures |s| >= w ==> r == s[..w]
  {
    if |s| >= w then s[..w] else Fill(' ', w - |s|) + s
  }

  /**
   * `"{:f^w}".format(s)`: `s` centred in `w` columns with fill `f`; when the
   * padding is odd, the extra fill character goes to the right. A string of
   * `w` or more characters is returned whole.
   */
  function Center(s: string, w: nat, f: char): (r: string)
    ensures |r| == if |s| >= w then |s| else w
    ensures var left := if |s| >= w then 0 else (w - |s|) / 2;
            var right := |r| - |s| - left;
            && r[left..left + |s|] == s
            && (forall i :: 0 <= i < left ==> r[i] == f)
            && (forall i :: left + |s| <= i < |r| ==> r[i] == f)
            && left <= right <= left + 1
  {
    if |s| >= w then s
    else
      var pad := w - |s|;
      Fill(f, pad / 2) + s + Fill(f, pad - pad / 2)
  }

  /** `"\n".join(rows)`. */
  function JoinLines(rows: seq<string>): (r: string)
    ensures |rows| > 0 ==> |r| >= |rows[0]| && r[..|rows[0]|] == rows[0]
    ensures |rows| > 1 ==> |r| > |rows[0]| && r[|rows[0]|] == '\n'
  {
    if |rows| == 0 then ""
    else if |rows| == 1 then rows[0]
    else rows[0] + "\n" + JoinLines(rows[1..])
  }

  /** `s.split("\n")`, the inverse of `JoinLines` on rows without newlines. */
  function SplitLines(s: string): (r: seq<string>)
    ensures |r| >= 1
  {
    if s == [] then [""]
    else
      var rest := SplitLines(s[1..]);
      if s[0] == '\n' then [""] + rest
      else [[s[0]] + rest[0]] + rest[1..]
  }

  /** One more element of a prefix; kept generic so that no caller unfolds the elements. */
  lemma PrefixStep<T>(s: seq<T>, i: nat)
    requires i < |s|
    ensures s[..i + 1] == s[..i] + [s[i]]
  {
  }

  predicate NoNewline(s: string)
  {
    forall i :: 0 <= i < |s| ==> s[i] != '\n'
  }

  predicate AllNoNewline(rows: seq<string>)
  {
    forall k :: 0 <= k < |rows| ==> NoNewline(rows[k])
  }

  lemma {:induction false} SplitSingleLine(s: string)
    requires NoNewline(s)
    ensures SplitLines(s) == [s]
  {
    if s != [] {
      assert s[0] != '\n';
      SplitSingleLine(s[1..]);
      assert [s[0]] + s[1..] == s;
    }
  }

  lemma {:induction false} SplitFirstLine(a: string, b: string)
    requires NoNewline(a)
    ensures SplitLines(a + "\n" + b) == [a] + SplitLines(b)
  {
    if a == [] {
      assert ("" + "\n" + b)[1..] == b;
    } else {
      assert (a + "\n" + b)[1..] == a[1..] + "\n" + b;
      SplitFirstLine(a[1..], b);
      assert [a[0]] + a[1..] == a;
    }
  }

  /** Joining rows that hold no newline and splitting the result again gives the rows back. */
  lemma {:induction false} SplitJoinLines(rows: seq<string>)
    requires |rows| > 0 && AllNoNewline(rows)
    ensures SplitLines(JoinLines(rows)) == rows
  {
    if |rows| == 1 {
      SplitSingleLine(rows[0]);
    } else {
      SplitFirstLine(rows[0], JoinLines(rows[1..]));
      SplitJoinLines(rows[1..]);
    }
  }

  /** The decimal digit for `d`. */
  function DigitChar(d: nat): (c: char)
    requires d < 10
    ensures '0' <= c <= '9'
  {
    ('0' as int + d) as char
  }

  function DigitValue(c: char): nat
  {
    if '0' <= c <= '9' then c as int - '0' as int else 0
  }

  predicate IsDigits(s: string)
  {
    forall i :: 0 <= i < |s| ==> '0' <= s[i] <= '9'
  }

  /** `str(n)` for a non-negative integer. */
  function NatToString(n: nat): (r: string)
    ensures |r| >= 1 && IsDigits(r)
    decreases n
  {
    if n < 10 then [DigitChar(n)] else NatToString(n / 10) + [DigitChar(n % 10)]
  }

  /** `int(s)` for a string of decimal digits. */
  function ParseNat(s: string): nat
  {
    if s == [] then 0 else ParseNat(s[..|s| - 1]) * 10 + DigitValue(s[|s| - 1])
  }

  /** Reading back the text of `n` gives `n`. */
  lemma {:induction false} ParseNatToString(n: nat)
    ensures ParseNat(NatToString(n)) == n
    decreases n
  {
    var s := NatToString(n);
    if n >= 10 {
      ParseNatToString(n / 10);
      assert s[..|s| - 1] == NatToString(n / 10);
    }
  }

  /** The number of digits of `n`, for the magnitudes the chart labels use. */
  lemma {:induction false} NatToStringLength(n: nat)
    ensures n < 10 ==> |NatToString(n)| == 1
    ensures 10 <= n < 100 ==> |NatToString(n)| == 2
    ensures 100 <= n < 1000 ==> |NatToString(n)| == 3
  {
    if n >= 10 {
      NatToStringLength(n / 10);
    }
  }

  function Sign(c: int): string
  {
    if c < 0 then "-" else ""
  }

  function Abs(c: int): nat
  {
    if c < 0 then -c else c
  }

  /** `"{:.2f}".format(c / 100)`: the amount `c` in cents with exactly two decimals. */
  function FormatCents(c: int): (r: string)
    ensures |r| >= 4 && r[|r| - 3] == '.'
    ensures (c < 0) <==> r[0] == '-'
    ensures IsDigits(r[|r| - 2..])
  {
    Sign(c) + TwoDecimals(Abs(c))
  }

  /** The magnitude `m` cents as whole units, a point and two digits. */
  function TwoDecimals(m: nat): string
  {
    NatToString(m / 100) + "." + [DigitChar(m % 100 / 10), DigitChar(m % 10)]
  }

  /**
   * `str(c / 100)` for a float holding `c` cents: the shortest of one or two
   * decimals that shows the value ("1000.0", "973.9", "973.96").
   */
  function BalanceText(c: int): (r: string)
    ensures |r| >= 3
    ensures (c < 0) <==> r[0] == '-'
    ensures r[|r| - 2] == '.' || (r[|r| - 3] == '.' && r[|r| - 1] != '0')
  {
    Sign(c) + ShortDecimals(Abs(c))
  }

  /** The magnitude `m` cents as whole units, a point and one digit, or two when the last is not 0. */
  function ShortDecimals(m: nat): string
  {
    var fraction := if m % 10 == 0 then [DigitChar(m % 100 / 10)]
                    else [DigitChar(m % 100 / 10), DigitChar(m % 10)];
    NatToString(m / 100) + "." + fraction
  }

  /** Reads "[-]digits.d" or "[-]digits.dd" back into cents. */
  function ParseCents(s: string): int
  {
    if |s| > 0 && s[0] == '-' then -(UnsignedCents(s[1..]) as int) else UnsignedCents(s)
  }

  function UnsignedCents(s: string): nat
  {
    if |s| >= 3 && s[|s| - 3] == '.' then ParseNat(s[..|s| - 3]) * 100 + ParseNat(s[|s| - 2..])
    else if |s| >= 2 && s[|s| - 2] == '.' then ParseNat(s[..|s| - 2]) * 100 + ParseNat(s[|s| - 1..]) * 10
    else ParseNat(s) * 100
  }

  lemma DigitRoundTrip(d: nat)
    requires d < 10
    ensures DigitValue(DigitChar(d)) == d
  {
  }

  lemma ParseOneDigit(d: nat)
    requires d < 10
    ensures ParseNat([DigitChar(d)]) == d
  {
    assert [DigitChar(d)][..0] == [];
    DigitRoundTrip(d);
  }

  lemma ParseTwoDigits(m: nat)
    requires m < 100
    ensures ParseNat([DigitChar(m / 10), DigitChar(m % 10)]) == m
  {
    var s := [DigitChar(m / 10), DigitChar(m % 10)];
    assert s[..1] == [DigitChar(m / 10)];
    ParseOneDigit(m / 10);
    DigitRoundTrip(m % 10);
  }

  /** A leading minus sign negates what follows it. */
  lemma ParseSigned(c: int, body: string)
    requires body != [] && body[0] != '-'
    ensures ParseCents(Sign(c) + body) == if c < 0 then -(UnsignedCents(body) as int) else UnsignedCents(body)
  {
    if c < 0 {
      assert (Sign(c) + body)[1..] == body;
    } else {
      assert Sign(c) + body == body;
    }
  }

  lemma ParseTwoDecimals(q: nat, r: nat)
    requires r < 100
    ensures UnsignedCents(NatToString(q) + "." + [DigitChar(r / 10), DigitChar(r % 10)]) == q * 100 + r
  {
    var whole := NatToString(q);
    var body := whole + "." + [DigitChar(r / 10), DigitChar(r % 10)];
    assert body[..|body| - 3] == whole;
    assert body[|body| - 2..] == [DigitChar(r / 10), DigitChar(r % 10)];
    ParseNatToString(q);
    ParseTwoDigits(r);
  }

  lemma ParseOneDecimal(q: nat, d: nat)
    requires d < 10
    ensures UnsignedCents(NatToString(q) + "." + [DigitChar(d)]) == q * 100 + d * 10
  {
    var whole := NatToString(q);
    var body := whole + "." + [DigitChar(d)];
    assert body[|body| - 3] == whole[|whole| - 1];
    assert body[..|body| - 2] == whole;
    assert body[|body| - 1..] == [DigitChar(d)];
    ParseNatToString(q);
    ParseOneDigit(d);
  }

  /** How a number of cents splits into units, tenths and hundredths. */
  lemma CentsDigits(m: nat)
    ensures m / 100 * 100 + m % 100 == m
    ensures m % 100 % 10 == m % 10
    ensures m % 100 / 10 * 10 + m % 10 == m % 100
  {
  }

  lemma TwoDecimalsRoundTrip(m: nat)
    ensures UnsignedCents(TwoDecimals(m)) == m
  {
    CentsDigits(m);
    ParseTwoDecimals(m / 100, m % 100);
  }

  lemma ShortDecimalsRoundTrip(m: nat)
    ensures UnsignedCents(ShortDecimals(m)) == m
  {
    CentsDigits(m);
    if m % 10 == 0 {
      ParseOneDecimal(m / 100, m % 100 / 10);
    } else {
      ParseTwoDecimals(m / 100, m % 100);
    }
  }

  /** The two-decimal text of an amount reads back as the same number of cents. */
  lemma FormatCentsRoundTrip(c: int)
    ensures ParseCents(FormatCents(c)) == c
  {
    TwoDecimalsRoundTrip(Abs(c));
    ParseSigned(c, TwoDecimals(Abs(c)));
  }

  /** The `Total:` text of a balance reads back as the same number of cents. */
  lemma BalanceTextRoundTrip(c: int)
    ensures ParseCents(BalanceText(c)) == c
  {
    ShortDecimalsRoundTrip(Abs(c));
    ParseSigned(c, ShortDecimals(Abs(c)));
  }

  /** `"{}" * n`: a template of `n` empty replacement fields. */
  function Placeholders(n: nat): (r: string)
    ensures |r| == 2 * n
  {
    if n == 0 then "" else "{}" + Placeholders(n - 1)
  }

  /** `"".join(parts)`. */
  function Concat(parts: seq<string>): string
  {
    if parts == [] then "" else parts[0] + Concat(parts[1..])
  }

  /**
   * `t.format(*args)` for a template whose only replacement fields are `{}`:
   * each `{}` takes the next argument, other characters are copied, unused
   * arguments are ignored, and running out of arguments is Python's
   * IndexError (`None`).
   */
  function Format(t: string, args: seq<string>): (r: Option<string>)
    ensures r.None? <==> Fields(t) > |args|
    decreases |t|
  {
    if t == [] then Some("")
    else if |t| >= 2 && t[0] == '{' && t[1] == '}' then
      if args == [] then None
      else
        match Format(t[2..], args[1..])
        case None => None
        case Some(rest) => Some(args[0] + rest)
    else
      match Format(t[1..], args)
      case None => None
      case Some(rest) => Some([t[0]] + rest)
  }

  /** The number of `{}` fields in `t`, read from left to right. */
  function Fields(t: string): nat
    decreases |t|
  {
    if t == [] then 0
    else if |t| >= 2 && t[0] == '{' && t[1] == '}' then 1 + Fields(t[2..])
    else Fields(t[1..])
  }

  predicate NoBrace(s: string)
  {
    forall i :: 0 <= i < |s| ==> s[i] != '{'
  }

  lemma {:induction false} FormatPlaceholders(args: seq<string>)
    ensures Format(Placeholders(|args|), args) == Some(Concat(args))
  {
    if args != [] {
      var t := Placeholders(|args|);
      assert t[2..] == Placeholders(|args| - 1);
      FormatPlaceholders(args[1..]);
    }
  }

  /**
   * Filling a brace-free prefix followed by one `{}` per argument gives the
   * prefix followed by the arguments, in order.
   */
  lemma {:induction false} FormatFilledTemplate(prefix: string, args: seq<string>)
    requires NoBrace(prefix)
    ensures Format(prefix + Placeholders(|args|), args) == Some(prefix + Concat(args))
  {
    if prefix == [] {
      assert prefix + Placeholders(|args|) == Placeholders(|args|);
      assert prefix + Concat(args) == Concat(args);
      FormatPlaceholders(args);
    } else {
      var t := prefix + Placeholders(|args|);
      assert t[0] == prefix[0];
      assert t[1..] == prefix[1..] + Placeholders(|args|);
      FormatFilledTemplate(prefix[1..], args);
      assert [prefix[0]] + (prefix[1..] + Concat(args)) == prefix + Concat(args);
    }
  }
}
