/**
 * String helpers that the modelled code gets from JavaScript's runtime:
 * `Number.prototype.toString` on integers and on tenths of integers,
 * `String.prototype.indexOf`, `String.prototype.split` on one character
 * and `Array.prototype.join`. Each rendering comes with the parse that
 * undoes it, so that what it produces can be read back.
 */
module Strings {
  import opened Wrappers

  // ---------------------------------------------------------------------
  // Decimal rendering of numbers

  predicate IsDigit(c: char) { '0' <= c <= '9' }

  predicate AllDigits(s: string) { forall i :: 0 <= i < |s| ==> IsDigit(s[i]) }

  function DigitChar(d: nat): (c: char)
    requires d < 10
    ensures IsDigit(c)
  {
    ('0' as int + d) as char
  }

  function DigitValue(c: char): (d: nat)
    requires IsDigit(c)
    ensures d < 10 && DigitChar(d) == c
  {
    c as int - '0' as int
  }

  /** The decimal digits of `n`, most significant first and without leading zeros. */
  function NatToString(n: nat): (s: string)
    ensures |s| > 0 && AllDigits(s)
    ensures |s| > 1 ==> s[0] != '0'
    decreases n
  {
    if n < 10 then [DigitChar(n)] else NatToString(n / 10) + [DigitChar(n % 10)]
  }

  /** The value of a string of decimal digits. */
  function ParseDigits(s: string): nat
    requires AllDigits(s)
  {
    if |s| == 0 then 0 else 10 * ParseDigits(s[..|s| - 1]) + DigitValue(s[|s| - 1])
  }

  /** Reading the digits of `n` back gives `n`. */
  lemma {:induction false} ParseNatToString(n: nat)
    ensures ParseDigits(NatToString(n)) == n
    decreases n
  {
    if n >= 10 {
      var s := NatToString(n);
      assert s[..|s| - 1] == NatToString(n / 10);
      ParseNatToString(n / 10);
    }
  }

  /** Different naturals have different renderings. */
  lemma {:induction false} NatToStringInjective(m: nat, n: nat)
    ensures NatToString(m) == NatToString(n) ==> m == n
  {
    ParseNatToString(m);
    ParseNatToString(n);
  }

  /** `String(i)` for an integer `i`. */
  function IntToString(i: int): (s: string)
    ensures |s| > 0
    ensures s[0] == '-' <==> i < 0
  {
    if i < 0 then "-" + NatToString(-i) else NatToString(i)
  }

  /** The integer written in `s` (an optional minus sign, then digits), if any. */
  function ParseInt(s: string): Option<int>
  {
    if |s| > 1 && s[0] == '-' && AllDigits(s[1..]) then Some(-(ParseDigits(s[1..]) as int))
    else if |s| > 0 && AllDigits(s) then Some(ParseDigits(s))
    else None
  }

  lemma {:induction false} ParseIntToString(i: int)
    ensures ParseInt(IntToString(i)) == Some(i)
  {
    if i < 0 {
      var s := IntToString(i);
      assert s[1..] == NatToString(-i);
      ParseNatToString(-i);
    } else {
      ParseNatToString(i);
    }
  }

  /**
   * `String(t / 10)` for a natural `t`: the whole part, then a point and the
   * tenths digit unless that digit is zero (JavaScript prints the shortest
   * form, so `50 / 10` is "5" and `55 / 10` is "5.5").
   */
  function TenthsToString(t: nat): (s: string)
    ensures t % 10 == 0 <==> AllDigits(s)
  {
    if t % 10 == 0 then NatToString(t / 10)
    else
      var s := NatToString(t / 10) + "." + [DigitChar(t % 10)];
      assert !IsDigit(s[|NatToString(t / 10)|]);
      s
  }

  /** The number of tenths written in `s`: either "w" or "w.d". */
  function ParseTenths(s: string): Option<nat>
  {
    if |s| >= 3 && s[|s| - 2] == '.' && AllDigits(s[..|s| - 2]) && IsDigit(s[|s| - 1]) then
      Some(10 * ParseDigits(s[..|s| - 2]) + DigitValue(s[|s| - 1]))
    else if |s| > 0 && AllDigits(s) then Some(10 * ParseDigits(s))
    else None
  }

  lemma {:induction false} ParseTenthsToString(t: nat)
    ensures ParseTenths(TenthsToString(t)) == Some(t)
  {
    var s := TenthsToString(t);
    ParseNatToString(t / 10);
    if t % 10 != 0 {
      assert s[..|s| - 2] == NatToString(t / 10);
    } else {
      assert IsDigit(s[|s| - 1]);
    }
  }

  // ---------------------------------------------------------------------
  // Searching

  /** `sub` occurs in `s` at position `i`. */
  predicate OccursAt(s: string, sub: string, i: nat)
  {
    i + |sub| <= |s| && s[i..i + |sub|] == sub
  }

  /** `sub` occurs somewhere in `s`. */
  predicate Occurs(s: string, sub: string)
  {
    exists i :: 0 <= i <= |s| && OccursAt(s, sub, i)
  }

  /** A string lacking one of `sub`'s characters does not contain `sub`. */
  lemma AbsentCharNotOccurs(s: string, sub: string, c: char)
    requires c in sub && c !in s
    ensures !Occurs(s, sub)
  {
  }

  /** `s.indexOf(sub, from)`: the first position at or after `from` where `sub` occurs, or -1. */
  function IndexOfFrom(s: string, sub: string, from: nat): (r: int)
    requires from <= |s|
    ensures r == -1 || (from <= r && OccursAt(s, sub, r))
    ensures r == -1 <==> forall i :: from <= i <= |s| ==> !OccursAt(s, sub, i)
    ensures r != -1 ==> forall i :: from <= i < r ==> !OccursAt(s, sub, i)
    decreases |s| - from
  {
    if OccursAt(s, sub, from) then from
    else if from == |s| then -1
    else IndexOfFrom(s, sub, from + 1)
  }

  /** `s.indexOf(sub)`. */
  function IndexOf(s: string, sub: string): (r: int)
    ensures r == -1 || (r >= 0 && OccursAt(s, sub, r))
    ensures r >= 0 <==> Occurs(s, sub)
    ensures r >= 0 ==> forall i :: 0 <= i < r ==> !OccursAt(s, sub, i)
  {
    IndexOfFrom(s, sub, 0)
  }

  // ---------------------------------------------------------------------
  // Splitting and joining on one character

  /** `s.split(sep)` for a one-character separator: never empty, and no token holds `sep`. */
  function Split(s: string, sep: char): (tokens: seq<string>)
    ensures |tokens| > 0
    ensures forall k :: 0 <= k < |tokens| ==> sep !in tokens[k]
    decreases |s|
  {
    if |s| == 0 then [""]
    else
      var rest := Split(s[1..], sep);
      assert s == [s[0]] + s[1..];
      if s[0] == sep then [""] + rest
      else [[s[0]] + rest[0]] + rest[1..]
  }

  /** A split has one more token than there are separators. */
  lemma {:induction false} SplitCount(s: string, sep: char)
    ensures |Split(s, sep)| == 1 + multiset(s)[sep]
    decreases |s|
  {
    if |s| > 0 {
      SplitCount(s[1..], sep);
      assert s == [s[0]] + s[1..];
    }
  }

  /** `tokens.join(sep)`: the tokens in order, one separator between neighbours. */
  function Join(tokens: seq<string>, sep: char): string
  {
    if |tokens| == 0 then ""
    else if |tokens| == 1 then tokens[0]
    else tokens[0] + [sep] + Join(tokens[1..], sep)
  }

  /** Joining tokens free of the separator puts exactly one separator between neighbours. */
  lemma {:induction false} JoinCount(tokens: seq<string>, sep: char)
    requires |tokens| > 0 && forall k :: 0 <= k < |tokens| ==> sep !in tokens[k]
    ensures multiset(Join(tokens, sep))[sep] == |tokens| - 1
  {
    if |tokens| > 1 {
      JoinCount(tokens[1..], sep);
      assert tokens[1..][0] == tokens[1];
      var rest := Join(tokens[1..], sep);
      assert multiset(Join(tokens, sep)) == multiset(tokens[0]) + multiset([sep]) + multiset(rest);
    }
  }

  /** Joining the tokens of a split gives back the string. */
  lemma {:induction false} JoinSplit(s: string, sep: char)
    ensures Join(Split(s, sep), sep) == s
    decreases |s|
  {
    if |s| > 0 {
      var rest := Split(s[1..], sep);
      JoinSplit(s[1..], sep);
      if s[0] != sep && |rest| > 1 {
        assert Join(rest, sep) == rest[0] + [sep] + Join(rest[1..], sep);
      }
    }
  }

  /** The first position of `c` in `s` (`s.indexOf(c)` for a present character). */
  function FirstIndex(s: string, c: char): (k: nat)
    requires c in s
    ensures k < |s| && s[k] == c && c !in s[..k]
  {
    if s[0] == c then 0
    else
      assert c in s[1..] by { assert s == [s[0]] + s[1..]; }
      var k := 1 + FirstIndex(s[1..], c);
      assert s[..k] == [s[0]] + s[1..][..k - 1];
      k
  }

  /** For a single character, `indexOf` finds it exactly when it is present, at `FirstIndex`. */
  lemma {:induction false} CharIndexOf(s: string, c: char)
    ensures c in s <==> IndexOf(s, [c]) >= 0
    ensures c in s ==> IndexOf(s, [c]) == FirstIndex(s, c)
  {
    var r := IndexOf(s, [c]);
    if r >= 0 {
      assert s[r..r + 1] == [c];
      assert s[r] in s;
    }
    if c in s {
      var k := FirstIndex(s, c);
      assert s[k..k + 1] == [c];
      assert OccursAt(s, [c], k);
    }
  }

  /** The first token of a split is everything before the first separator. */
  lemma {:induction false} SplitHead(s: string, sep: char)
    ensures sep in s ==> Split(s, sep)[0] == s[..FirstIndex(s, sep)]
    ensures sep !in s ==> Split(s, sep) == [s]
    decreases |s|
  {
    if |s| > 0 {
      SplitHead(s[1..], sep);
      assert s == [s[0]] + s[1..];
      if s[0] != sep {
        assert sep in s ==> sep in s[1..];
        assert sep !in s ==> sep !in s[1..];
      }
    }
  }

  /**
   * Dropping the first token of a split and joining the rest gives everything
   * after the first separator (nothing when there is none).
   */
  lemma {:induction false} JoinSplitTail(s: string, sep: char)
    ensures Join(Split(s, sep)[1..], sep) == if sep in s then s[FirstIndex(s, sep) + 1..] else ""
    decreases |s|
  {
    if |s| > 0 {
      var rest := Split(s[1..], sep);
      if s[0] == sep {
        JoinSplit(s[1..], sep);
      } else {
        JoinSplitTail(s[1..], sep);
        assert sep in s <==> sep in s[1..] by { assert s == [s[0]] + s[1..]; }
      }
    }
  }
}
