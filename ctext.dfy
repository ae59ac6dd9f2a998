/**
  Character-level building blocks of the channel server: the text that
  printf-style formatting writes ("%d", "%02d", "%s"), the decimal value a
  digit string stands for, NUL-terminated C strings read back from a
  buffer, and the last-occurrence substring search used on control
  datagrams.
 */
module CText {

  datatype Option<+T> = None | Some(value: T)

  /** The C string terminator. */
  const NUL: char := '\0'

  predicate IsDigit(c: char) {
    '0' <= c <= '9'
  }

  predicate AllDigits(s: string) {
    forall k :: 0 <= k < |s| ==> IsDigit(s[k])
  }

  function DigitChar(d: nat): (c: char)
    requires d < 10
    ensures IsDigit(c) && DigitValue(c) == d
  {
    ('0' as int + d) as char
  }

  function DigitValue(c: char): (d: nat)
    requires IsDigit(c)
    ensures d < 10
  {
    c as int - '0' as int
  }

  function Pow10(k: nat): (p: nat)
    ensures p >= 1
  {
    if k == 0 then 1 else 10 * Pow10(k - 1)
  }

  /** The decimal number a string of digits denotes (what a port parser reads). */
  function Value(s: string): nat
    requires AllDigits(s)
  {
    if s == [] then 0 else Value(s[..|s| - 1]) * 10 + DigitValue(s[|s| - 1])
  }

  /** The text "%d" prints for a non-negative integer: digits only, and a
      leading '0' only for zero itself. */
  function Decimal(n: nat): (s: string)
    ensures |s| >= 1 && AllDigits(s)
    ensures s[0] == '0' <==> n == 0
  {
    if n < 10 then [DigitChar(n)] else Decimal(n / 10) + [DigitChar(n % 10)]
  }

  /** The text "%02d" prints for a non-negative integer: at least two digits,
      padded on the left with '0'. */
  function ZeroPad2(n: nat): (s: string)
    ensures AllDigits(s)
    ensures |s| == if n < 10 then 2 else |Decimal(n)|
  {
    if n < 10 then "0" + Decimal(n) else Decimal(n)
  }

  /** Reading back what "%d" printed gives the number that was printed. */
  lemma {:induction false} ValueOfDecimal(n: nat)
    ensures Value(Decimal(n)) == n
  {
    if n >= 10 {
      ValueOfDecimal(n / 10);
      var s := Decimal(n);
      assert s[..|s| - 1] == Decimal(n / 10);
    }
  }

  /** "%d" never prints two numbers the same way. */
  lemma DecimalInjective(m: nat, n: nat)
    ensures Decimal(m) == Decimal(n) ==> m == n
  {
    ValueOfDecimal(m);
    ValueOfDecimal(n);
  }

  /** A digit string appended to another scales the first by a power of ten. */
  lemma {:induction false} ValueOfConcat(a: string, b: string)
    requires AllDigits(a) && AllDigits(b)
    ensures AllDigits(a + b)
    ensures Value(a + b) == Value(a) * Pow10(|b|) + Value(b)
  {
    if b == [] {
      assert a + b == a;
    } else {
      var b' := b[..|b| - 1];
      var c := b[|b| - 1];
      ValueOfConcat(a, b');
      assert (a + b)[..|a + b| - 1] == a + b';
      assert (a + b)[|a + b| - 1] == c;
      var x, p, y, d := Value(a), Pow10(|b'|), Value(b'), DigitValue(c);
      assert Value(a + b) == Value(a + b') * 10 + d;
      assert Value(b) == y * 10 + d;
      assert Pow10(|b|) == p * 10;
      ShiftByDigit(x, p, y, d);
    }
  }

  lemma ShiftByDigit(x: int, p: int, y: int, d: int)
    ensures (x * p + y) * 10 + d == x * (p * 10) + (y * 10 + d)
  {
  }

  /** Reading back what "%02d" printed gives the number that was printed. */
  lemma ValueOfZeroPad2(n: nat)
    ensures Value(ZeroPad2(n)) == n
  {
    ValueOfDecimal(n);
    if n < 10 {
      ValueOfConcat("0", Decimal(n));
      assert Value("0") == 0 by {
        assert "0"[..0] == [];
      }
    }
  }

  /** "%02d" never prints two numbers the same way. */
  lemma ZeroPad2Injective(m: nat, n: nat)
    ensures ZeroPad2(m) == ZeroPad2(n) ==> m == n
  {
    ValueOfZeroPad2(m);
    ValueOfZeroPad2(n);
  }

  /** "%d" needs at most k characters exactly when the number is below 10^k. */
  lemma {:induction false} DecimalLength(n: nat, k: nat)
    requires k >= 1
    ensures |Decimal(n)| <= k <==> n < Pow10(k)
  {
    assert Pow10(k) == 10 * Pow10(k - 1);
    if n < 10 {
      assert Pow10(k - 1) >= 1;
    } else if k == 1 {
      assert |Decimal(n)| == |Decimal(n / 10)| + 1;
    } else {
      DecimalLength(n / 10, k - 1);
      var p := Pow10(k - 1);
      assert n / 10 < p <==> n < 10 * p;
    }
  }

  /** The text of a C string held in a buffer: everything before the first
      NUL, or the whole buffer when it holds none. */
  function CStr(buf: seq<char>): (t: string)
    ensures |t| <= |buf| && t == buf[..|t|] && NUL !in t
    ensures |t| < |buf| ==> buf[|t|] == NUL
    ensures NUL !in buf ==> t == buf
  {
    if buf == [] || buf[0] == NUL then [] else [buf[0]] + CStr(buf[1..])
  }

  /** Whatever follows a terminator is invisible to the C string. */
  lemma {:induction false} CStrStopsAtTerminator(s: seq<char>, rest: seq<char>)
    ensures CStr(s + [NUL] + rest) == CStr(s)
  {
    if s != [] && s[0] != NUL {
      assert (s + [NUL] + rest)[1..] == s[1..] + [NUL] + rest;
      CStrStopsAtTerminator(s[1..], rest);
    } else if s == [] {
      assert (s + [NUL] + rest)[0] == NUL;
    }
  }

  /** A string without NUL read back from a buffer where it was stored with
      its terminator. */
  lemma CStrOfStored(s: string, rest: seq<char>)
    requires NUL !in s
    ensures CStr(s + [NUL] + rest) == s
  {
    CStrStopsAtTerminator(s, rest);
  }

  /** Texts that start alike are equal exactly when what follows is. */
  lemma CancelPrefix(p: string, a: string, b: string)
    ensures p + a == p + b ==> a == b
  {
    if p + a == p + b {
      assert (p + a)[|p|..] == a;
      assert (p + b)[|p|..] == b;
    }
  }

  /** Text with neither a conversion character nor a terminator in it. */
  predicate PlainText(s: string) {
    forall k :: 0 <= k < |s| ==> s[k] != '%' && s[k] != NUL
  }

  lemma PlainConcat(a: string, b: string)
    requires PlainText(a) && PlainText(b)
    ensures PlainText(a + b)
  {
    forall k | 0 <= k < |a + b|
      ensures (a + b)[k] != '%' && (a + b)[k] != NUL
    {
      if k >= |a| {
        assert (a + b)[k] == b[k - |a|];
      }
    }
  }

  lemma PlainTextExcludes(s: string)
    requires PlainText(s)
    ensures '%' !in s && NUL !in s
  {
  }

  /** What g_sprintf writes for a format whose only conversion is "%s",
      given one string argument. */
  function FormatString(format: string, arg: string): (r: string)
    ensures '%' !in format ==> r == format
  {
    if |format| >= 2 && format[0] == '%' && format[1] == 's' then
      arg + FormatString(format[2..], arg)
    else if format == [] then
      []
    else
      [format[0]] + FormatString(format[1..], arg)
  }

  /** A format with a single "%s" between two literal parts puts the
      argument between those parts. */
  lemma {:induction false} FormatOneString(prefix: string, suffix: string, arg: string)
    requires '%' !in prefix && '%' !in suffix
    ensures FormatString(prefix + "%s" + suffix, arg) == prefix + arg + suffix
  {
    if prefix == [] {
      calc {
        FormatString(prefix + "%s" + suffix, arg);
      == { assert prefix + "%s" + suffix == "%s" + suffix; }
        FormatString("%s" + suffix, arg);
      == { FormatConversionStep(suffix, arg); }
        arg + FormatString(suffix, arg);
      == { assert prefix + arg + suffix == arg + suffix; }
        prefix + arg + suffix;
      }
    } else {
      var c, rest := prefix[0], prefix[1..];
      calc {
        FormatString(prefix + "%s" + suffix, arg);
      == { assert prefix + "%s" + suffix == [c] + (rest + "%s" + suffix); }
        FormatString([c] + (rest + "%s" + suffix), arg);
      == { FormatLiteralStep(c, rest + "%s" + suffix, arg); }
        [c] + FormatString(rest + "%s" + suffix, arg);
      == { FormatOneString(rest, suffix, arg); }
        [c] + (rest + arg + suffix);
      == { assert prefix == [c] + rest; }
        prefix + arg + suffix;
      }
    }
  }

  lemma FormatConversionStep(rest: string, arg: string)
    ensures FormatString("%s" + rest, arg) == arg + FormatString(rest, arg)
  {
    assert ("%s" + rest)[2..] == rest;
  }

  lemma FormatLiteralStep(c: char, rest: string, arg: string)
    requires c != '%'
    ensures FormatString([c] + rest, arg) == [c] + FormatString(rest, arg)
  {
    assert ([c] + rest)[1..] == rest;
  }

  predicate OccursAt(text: string, token: string, k: int) {
    0 <= k && k + |token| <= |text| && text[k..k + |token|] == token
  }

  predicate Contains(text: string, token: string) {
    exists k | 0 <= k <= |text| - |token| :: OccursAt(text, token, k)
  }

  /** g_strrstr: the position of the last occurrence of token in text, or
      None when there is none. */
  function LastOccurrence(text: string, token: string): (r: Option<nat>)
    ensures r.Some? ==> OccursAt(text, token, r.value)
    ensures r.Some? ==> forall k :: r.value < k ==> !OccursAt(text, token, k)
    ensures r.None? <==> !Contains(text, token)
  {
    if |token| > |text| then None else SearchBackward(text, token, |text| - |token|)
  }

  /** The last occurrence of token starting at or before position k. */
  function SearchBackward(text: string, token: string, k: nat): (r: Option<nat>)
    requires k + |token| <= |text|
    ensures r.Some? ==> r.value <= k && OccursAt(text, token, r.value)
    ensures r.Some? ==> forall j :: r.value < j <= k ==> !OccursAt(text, token, j)
    ensures r.None? ==> forall j :: j <= k ==> !OccursAt(text, token, j)
    decreases k
  {
    if text[k..k + |token|] == token then Some(k)
    else if k == 0 then None
    else SearchBackward(text, token, k - 1)
  }
}
