/** The string operations of JavaScript that the core relies on, written out
    over `seq<char>`: `Array.prototype.join`, `String.prototype.split` with a
    one-character separator, `repeat`, `trim`, the decimal form that a
    template string gives an integer, and `Number` applied to a digit
    string. */
module Text {

  // ---------------------------------------------------------------------
  // join and split
  // ---------------------------------------------------------------------

  /** `parts.join(sep)`. */
  function Join(parts: seq<string>, sep: string): string
  {
    if |parts| == 0 then ""
    else if |parts| == 1 then parts[0]
    else parts[0] + sep + Join(parts[1..], sep)
  }

  /** `s.split(c)` for a one-character separator `c`. */
  function Split(s: string, c: char): (pieces: seq<string>)
    ensures |pieces| >= 1
  {
    if s == [] then [""]
    else if s[0] == c then [""] + Split(s[1..], c)
    else
      var rest := Split(s[1..], c);
      [[s[0]] + rest[0]] + rest[1..]
  }

  /** The lines of a text, as `s.split('\n')` gives them. */
  function Lines(s: string): seq<string>
  {
    Split(s, '\n')
  }

  /** The sum of the lengths of the parts. */
  function TotalLength(parts: seq<string>): nat
  {
    if parts == [] then 0 else |parts[0]| + TotalLength(parts[1..])
  }

  /** The number of occurrences of `c` in the parts, added up. */
  function TotalCount(parts: seq<string>, c: char): nat
  {
    if parts == [] then 0 else multiset(parts[0])[c] + TotalCount(parts[1..], c)
  }

  predicate NoneContains(parts: seq<string>, c: char)
  {
    forall i :: 0 <= i < |parts| ==> c !in parts[i]
  }

  /** Joining n >= 1 parts adds n - 1 separators to their lengths. */
  lemma {:induction false} JoinLength(parts: seq<string>, sep: string)
    requires |parts| >= 1
    ensures |Join(parts, sep)| == TotalLength(parts) + (|parts| - 1) * |sep|
  {
    if |parts| > 1 {
      JoinLength(parts[1..], sep);
    }
  }

  /** The occurrences of a character in a join are those of the parts plus
      one for each of the n - 1 separators, when the separator holds the
      character once. */
  lemma {:induction false} JoinCount(parts: seq<string>, sep: string, c: char)
    requires |parts| >= 1 && multiset(sep)[c] == 1
    ensures multiset(Join(parts, sep))[c] == TotalCount(parts, c) + |parts| - 1
  {
    if |parts| > 1 {
      var rest := Join(parts[1..], sep);
      JoinCount(parts[1..], sep, c);
      assert Join(parts, sep) == parts[0] + sep + rest;
      assert multiset(parts[0] + sep + rest) == multiset(parts[0]) + multiset(sep) + multiset(rest);
    }
  }

  /** Splitting a text on `c` gives one more piece than it has `c`s. */
  lemma {:induction false} SplitCount(s: string, c: char)
    ensures |Split(s, c)| == multiset(s)[c] + 1
  {
    if s != [] {
      SplitCount(s[1..], c);
      assert s == [s[0]] + s[1..];
    }
  }

  /** A text without `c` splits into itself alone. */
  lemma {:induction false} SplitWithout(s: string, c: char)
    requires c !in s
    ensures Split(s, c) == [s]
  {
    if s != [] {
      SplitWithout(s[1..], c);
      assert [s[0]] + s[1..] == s;
    }
  }

  /** Splitting two texts put together around a `c` gives the pieces of the
      first followed by the pieces of the second. */
  lemma {:induction false} SplitConcat(a: string, c: char, b: string)
    ensures Split(a + [c] + b, c) == Split(a, c) + Split(b, c)
    decreases |a|
  {
    if a == [] {
      assert a + [c] + b == [c] + b;
      SplitCons(c, b, c);
    } else {
      var t := a[1..];
      SplitConcat(t, c, b);
      assert [a[0]] + t == a;
      assert [a[0]] + (t + [c] + b) == a + [c] + b;
      SplitConsConcat(a[0], t, c, b);
    }
  }

  /** The step of `SplitConcat`: one more character in front. */
  lemma {:induction false} SplitConsConcat(x: char, t: string, c: char, b: string)
    requires Split(t + [c] + b, c) == Split(t, c) + Split(b, c)
    ensures Split([x] + (t + [c] + b), c) == Split([x] + t, c) + Split(b, c)
  {
    if x == c {
      SplitSeparatorConcat(x, t, c, b);
    } else {
      SplitOtherConcat(x, t, c, b);
    }
  }

  lemma {:induction false} SplitSeparatorConcat(x: char, t: string, c: char, b: string)
    requires x == c
    requires Split(t + [c] + b, c) == Split(t, c) + Split(b, c)
    ensures Split([x] + (t + [c] + b), c) == Split([x] + t, c) + Split(b, c)
  {
    var left, right := Split(t, c), Split(b, c);
    SplitCons(x, t + [c] + b, c);
    SplitCons(x, t, c);
    ConcatAssoc([""], left, right);
  }

  lemma {:induction false} SplitOtherConcat(x: char, t: string, c: char, b: string)
    requires x != c
    requires Split(t + [c] + b, c) == Split(t, c) + Split(b, c)
    ensures Split([x] + (t + [c] + b), c) == Split([x] + t, c) + Split(b, c)
  {
    var left, right := Split(t, c), Split(b, c);
    SplitCons(x, t + [c] + b, c);
    SplitCons(x, t, c);
    ConcatHeadTail(left, right);
    ConcatAssoc([[x] + left[0]], left[1..], right);
  }

  lemma TakeDrop<T>(s: seq<T>, k: nat)
    requires k <= |s|
    ensures s == s[..k] + s[k..]
  {
  }

  lemma ConcatAssoc<T>(a: seq<T>, b: seq<T>, c: seq<T>)
    ensures a + (b + c) == (a + b) + c
  {
  }

  /** The head and the tail of a concatenation whose first part is not
      empty. */
  lemma ConcatHeadTail<T>(l: seq<T>, r: seq<T>)
    requires |l| >= 1
    ensures (l + r)[0] == l[0] && (l + r)[1..] == l[1..] + r
  {
  }

  /** One unfolding of `Split` on a text that starts with `x`. */
  lemma {:induction false} SplitCons(x: char, t: string, c: char)
    ensures x == c ==> Split([x] + t, c) == [""] + Split(t, c)
    ensures x != c ==> Split([x] + t, c) == [[x] + Split(t, c)[0]] + Split(t, c)[1..]
  {
    assert ([x] + t)[1..] == t;
  }

  /** Splitting `a + [c] + b`, where `a` has no `c`, splits off `a`. */
  lemma SplitAfter(a: string, c: char, b: string)
    requires c !in a
    ensures Split(a + [c] + b, c) == [a] + Split(b, c)
  {
    SplitConcat(a, c, b);
    SplitWithout(a, c);
  }

  /** Split undoes a join on a one-character separator that none of the
      parts contains: the pieces are the parts, in order. */
  lemma {:induction false} SplitJoin(parts: seq<string>, c: char)
    requires |parts| >= 1 && NoneContains(parts, c)
    ensures Split(Join(parts, [c]), c) == parts
  {
    if |parts| == 1 {
      SplitWithout(parts[0], c);
    } else {
      SplitJoin(parts[1..], c);
      SplitAfter(parts[0], c, Join(parts[1..], [c]));
      assert parts == [parts[0]] + parts[1..];
    }
  }

  /** Text without `c` in front of a string joins its first piece. */
  lemma {:induction false} SplitPrefix(pad: string, x: string, c: char)
    requires c !in pad
    ensures Split(pad + x, c) == [pad + Split(x, c)[0]] + Split(x, c)[1..]
  {
    if pad != [] {
      var t := pad[1..] + x;
      SplitPrefix(pad[1..], x, c);
      assert pad + x == [pad[0]] + t;
      SplitCons(pad[0], t, c);
      assert [pad[0]] + (pad[1..] + Split(x, c)[0]) == pad + Split(x, c)[0];
    } else {
      assert pad + x == x;
      assert pad + Split(x, c)[0] == Split(x, c)[0];
      assert Split(x, c) == [Split(x, c)[0]] + Split(x, c)[1..];
    }
  }

  /** Each part with `pad` in front. */
  function Padded(pad: string, parts: seq<string>): (r: seq<string>)
    ensures |r| == |parts|
    ensures forall i :: 0 <= i < |parts| ==> r[i] == pad + parts[i]
  {
    seq(|parts|, i requires 0 <= i < |parts| => pad + parts[i])
  }

  /** Splitting at `c` a join on `c` followed by `pad` gives the first part,
      then every other part with the pad in front, when neither the parts
      nor the pad hold `c`. */
  lemma {:induction false} SplitJoinPadded(parts: seq<string>, c: char, pad: string)
    requires |parts| >= 1 && NoneContains(parts, c) && c !in pad
    ensures Split(Join(parts, [c] + pad), c) == [parts[0]] + Padded(pad, parts[1..])
  {
    if |parts| == 1 {
      SplitWithout(parts[0], c);
    } else {
      var rest := Join(parts[1..], [c] + pad);
      SplitJoinPadded(parts[1..], c, pad);
      assert Join(parts, [c] + pad) == parts[0] + [c] + (pad + rest);
      SplitAfter(parts[0], c, pad + rest);
      SplitPrefix(pad, rest, c);
      assert Padded(pad, parts[1..]) == [pad + parts[1]] + Padded(pad, parts[1..][1..]);
    }
  }

  /** Joining one more part at the end adds a separator and that part. */
  lemma {:induction false} JoinSnoc(parts: seq<string>, sep: string, last: string)
    requires |parts| >= 1
    ensures Join(parts + [last], sep) == Join(parts, sep) + sep + last
  {
    if |parts| == 1 {
      assert (parts + [last])[1..] == [last];
    } else {
      JoinSnoc(parts[1..], sep, last);
      assert (parts + [last])[1..] == parts[1..] + [last];
    }
  }

  // ---------------------------------------------------------------------
  // repeat
  // ---------------------------------------------------------------------

  /** `s.repeat(n)`. */
  function Repeat(s: string, n: nat): (r: string)
    ensures |r| == n * |s|
  {
    if n == 0 then "" else s + Repeat(s, n - 1)
  }

  /** Every character of `c.repeat(n)` is `c`. */
  lemma {:induction false} RepeatChar(c: char, n: nat)
    ensures |Repeat([c], n)| == n
    ensures forall i :: 0 <= i < n ==> Repeat([c], n)[i] == c
  {
    if n > 0 {
      RepeatChar(c, n - 1);
    }
  }

  // ---------------------------------------------------------------------
  // whitespace and trim
  // ---------------------------------------------------------------------

  /** The characters JavaScript's `trim` removes and its regular-expression
      class `\s` matches: the white-space and line-terminator characters of
      ECMAScript (tab, vertical tab, form feed, space, no-break space, the
      byte-order mark, the space separators of Unicode, line feed, carriage
      return, line and paragraph separator). */
  predicate IsSpace(c: char)
  {
    IsSpaceCode(c as int)
  }

  /** The same set by code point: tab to carriage return (9-13), space (32),
      U+00A0, U+1680, U+2000 to U+200A, U+2028, U+2029, U+202F, U+205F,
      U+3000 and U+FEFF. */
  predicate IsSpaceCode(n: int)
  {
    || (9 <= n <= 13) || n == 32 || n == 0xA0 || n == 0x1680
    || (0x2000 <= n <= 0x200A)
    || n == 0x2028 || n == 0x2029 || n == 0x202F || n == 0x205F
    || n == 0x3000 || n == 0xFEFF
  }

  predicate NoSpace(s: string)
  {
    forall i :: 0 <= i < |s| ==> !IsSpace(s[i])
  }

  /** Drops the leading white space. */
  function TrimStart(s: string): (r: string)
    ensures |r| <= |s| && r == s[|s| - |r|..]
    ensures forall k :: 0 <= k < |s| - |r| ==> IsSpace(s[k])
    ensures r != [] ==> !IsSpace(r[0])
  {
    if s != [] && IsSpace(s[0]) then TrimStart(s[1..]) else s
  }

  /** Drops the trailing white space. */
  function TrimEnd(s: string): (r: string)
    ensures |r| <= |s| && r == s[..|r|]
    ensures forall k :: |r| <= k < |s| ==> IsSpace(s[k])
    ensures r != [] ==> !IsSpace(r[|r| - 1])
  {
    if s != [] && IsSpace(s[|s| - 1]) then TrimEnd(s[..|s| - 1]) else s
  }

  /** `s.trim()`: the text between the leading and the trailing white
      space. */
  function Trim(s: string): (r: string)
    ensures |s| - |TrimStart(s)| + |r| <= |s|
    ensures r == s[|s| - |TrimStart(s)|..|s| - |TrimStart(s)| + |r|]
    ensures forall k :: 0 <= k < |s| - |TrimStart(s)| ==> IsSpace(s[k])
    ensures forall k :: |s| - |TrimStart(s)| + |r| <= k < |s| ==> IsSpace(s[k])
    ensures r != [] ==> !IsSpace(r[0]) && !IsSpace(r[|r| - 1])
    ensures NoSpace(s) ==> r == s
  {
    TrimEnd(TrimStart(s))
  }

  /** `s.trim()` is truthy. */
  predicate IsBlank(s: string)
  {
    Trim(s) == ""
  }

  // ---------------------------------------------------------------------
  // decimal numbers
  // ---------------------------------------------------------------------

  /** The class `\d` of JavaScript regular expressions: ASCII digits only. */
  predicate IsDigit(c: char)
  {
    '0' <= c <= '9'
  }

  predicate AllDigits(s: string)
  {
    forall i :: 0 <= i < |s| ==> IsDigit(s[i])
  }

  /** A match of `^\d+$`. */
  predicate IsDigitString(s: string)
  {
    |s| >= 1 && AllDigits(s)
  }

  function DigitChar(d: nat): (c: char)
    requires d < 10
    ensures IsDigit(c)
  {
    (('0' as int) + d) as char
  }

  function DigitValue(c: char): (d: nat)
    requires IsDigit(c)
    ensures d < 10 && DigitChar(d) == c
  {
    (c as int) - ('0' as int)
  }

  /** The decimal form of a natural number, as a template string writes it. */
  function NatToString(n: nat): (s: string)
    ensures IsDigitString(s)
    ensures s[0] == '0' <==> n == 0
    ensures n == 0 ==> s == "0"
  {
    if n < 10 then [DigitChar(n)] else NatToString(n / 10) + [DigitChar(n % 10)]
  }

  /** `${n}` for an integer `n`: a minus sign before the digits when the
      number is negative. */
  function IntToString(n: int): (s: string)
    ensures |s| >= 1
    ensures n >= 0 ==> IsDigitString(s)
    ensures n < 0 ==> s[0] == '-' && IsDigitString(s[1..])
  {
    if n < 0 then "-" + NatToString(-n) else NatToString(n)
  }

  /** `Number(s)` for a digit string `s`. */
  function DigitsValue(s: string): nat
    requires AllDigits(s)
  {
    if s == [] then 0 else DigitsValue(s[..|s| - 1]) * 10 + DigitValue(s[|s| - 1])
  }

  /** Reading back the decimal form of a number gives the number. */
  lemma {:induction false} DigitsValueOfNatToString(n: nat)
    ensures DigitsValue(NatToString(n)) == n
  {
    if n >= 10 {
      DigitsValueOfNatToString(n / 10);
      var s := NatToString(n);
      assert s[..|s| - 1] == NatToString(n / 10);
    }
  }

  /** A digit string that does not start with '0' has a positive value. */
  lemma {:induction false} DigitsValuePositive(s: string)
    requires IsDigitString(s) && s[0] != '0'
    ensures DigitsValue(s) >= 1
  {
    if |s| > 1 {
      DigitsValuePositive(s[..|s| - 1]);
    }
  }

  /** The decimal form of a digit string's value is the digit string itself
      exactly when it has no leading zero (the single digit "0" aside). */
  lemma {:induction false} NatToStringOfDigitsValue(s: string)
    requires IsDigitString(s)
    ensures NatToString(DigitsValue(s)) == s <==> (s[0] != '0' || s == "0")
  {
    if s[0] != '0' || s == "0" {
      CanonicalDigits(s);
    } else {
      // `s` has a leading zero and more than one digit: its value's decimal
      // form is either "0" (one character) or starts with a non-zero digit.
      var v := DigitsValue(s);
      assert NatToString(v) != s by {
        if v == 0 {
          assert NatToString(v) == "0";
          assert |s| > 1;
        } else {
          assert NatToString(v)[0] != '0';
        }
      }
    }
  }

  lemma {:induction false} CanonicalDigits(s: string)
    requires IsDigitString(s) && (s[0] != '0' || s == "0")
    ensures NatToString(DigitsValue(s)) == s
  {
    if |s| == 1 {
      assert s[..0] == [];
    } else {
      var t := s[..|s| - 1];
      assert t[0] == s[0];
      CanonicalDigits(t);
      DigitsValuePositive(t);
      var v := DigitsValue(s);
      assert v / 10 == DigitsValue(t) && v % 10 == DigitValue(s[|s| - 1]);
      assert s == t + [s[|s| - 1]];
    }
  }
}
