/** The few PHP value semantics the generator commands rely on: optional
    command-line options, `empty()` on strings, and the decimal rendering of
    non-negative integers done by `sprintf('%d')` and string interpolation. */
module Php {

  /** An option of `$assoc_args`: absent, or given with a value. */
  datatype Option<+T> = None | Some(value: T)

  /** The value of an option after `array_merge($defaults, $assoc_args)` or
      `get_flag_value($assoc_args, $key, $default)`: a given value always wins,
      even an empty one. */
  function OrDefault<T>(o: Option<T>, default: T): (r: T)
    ensures o.Some? ==> r == o.value
    ensures o.None? ==> r == default
  {
    match o
    case Some(v) => v
    case None => default
  }

  /** PHP's `empty()` on a string: true for "" and for "0". */
  predicate Empty(s: string) {
    s == "" || s == "0"
  }

  /** `empty($assoc_args[$key])`: an absent key reads as null, which is empty. */
  predicate Blank(o: Option<string>) {
    o.None? || Empty(o.value)
  }

  function DigitChar(d: nat): (c: char)
    requires d < 10
    ensures '0' <= c <= '9'
  {
    (d + '0' as int) as char
  }

  function DigitValue(c: char): nat {
    if '0' <= c <= '9' then c as int - '0' as int else 0
  }

  /** The decimal text of `n`, as `sprintf('%d', $n)` and `"... $n"` write it. */
  function Str(n: nat): (s: string)
    ensures |s| >= 1
    ensures forall k :: 0 <= k < |s| ==> '0' <= s[k] <= '9'
  {
    if n < 10 then [DigitChar(n)] else Str(n / 10) + [DigitChar(n % 10)]
  }

  /** Reads a string of decimal digits back as a number; the inverse of `Str`. */
  function Parse(s: string): nat {
    if s == [] then 0 else Parse(s[..|s| - 1]) * 10 + DigitValue(s[|s| - 1])
  }

  lemma {:induction false} ParseStr(n: nat)
    ensures Parse(Str(n)) == n
  {
    if n >= 10 {
      var s := Str(n);
      assert s[..|s| - 1] == Str(n / 10);
      ParseStr(n / 10);
    }
  }

  /** Different numbers are never written the same way. */
  lemma StrInjective(a: nat, b: nat)
    requires Str(a) == Str(b)
    ensures a == b
  {
    ParseStr(a);
    ParseStr(b);
  }

  /** Only zero is written "0", so `empty()` holds of no positive id. */
  lemma StrPositive(n: nat)
    requires n > 0
    ensures !Empty(Str(n))
  {
    ParseStr(n);
    assert Parse("0") == 0;
  }

  /** The part of `s` before the first occurrence of `c` (all of `s` if none). */
  function Before(s: string, c: char): (r: string)
    ensures |r| <= |s|
  {
    if s == [] || s[0] == c then [] else [s[0]] + Before(s[1..], c)
  }

  lemma {:induction false} BeforeSplit(a: string, c: char, b: string)
    requires forall k :: 0 <= k < |a| ==> a[k] != c
    ensures Before(a + [c] + b, c) == a
  {
    if a != [] {
      assert (a + [c] + b)[1..] == a[1..] + [c] + b;
      BeforeSplit(a[1..], c, b);
    }
  }

  /** Appending the same suffix keeps different strings different. */
  lemma SuffixCancel(x: string, y: string, suffix: string)
    requires x + suffix == y + suffix
    ensures x == y
  {
    assert |x| == |y|;
    assert x == (x + suffix)[..|x|];
    assert y == (y + suffix)[..|y|];
  }

  /** Prepending the same prefix keeps different strings different. */
  lemma PrefixCancel(prefix: string, x: string, y: string)
    requires prefix + x == prefix + y
    ensures x == y
  {
    assert x == (prefix + x)[|prefix|..];
    assert y == (prefix + y)[|prefix|..];
  }
}
