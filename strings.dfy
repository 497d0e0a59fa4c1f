/**
 * The pieces of Rust's `str`/`String` API and of `format!` that the generators
 * rely on: decimal formatting of integers, `join`, `contains`, `starts_with`,
 * `replace` and ASCII upper-casing. Strings are sequences of Unicode scalar
 * values (`seq<char>`).
 */
module Strings {

  /** The decimal digit for `d`. */
  function Digit(d: nat): (c: char)
    requires d < 10
    ensures '0' <= c <= '9'
    ensures c as int - '0' as int == d
  {
    ('0' as int + d) as char
  }

  predicate IsDigits(s: string) {
    forall i :: 0 <= i < |s| ==> '0' <= s[i] <= '9'
  }

  /** `format!("{n}")` for a non-negative integer: shortest decimal, no leading zero. */
  function NatToString(n: nat): (s: string)
    ensures |s| >= 1 && IsDigits(s)
    ensures s[0] == '0' ==> n == 0
    decreases n
  {
    if n < 10 then [Digit(n)] else NatToString(n / 10) + [Digit(n % 10)]
  }

  /** Distinct numbers print differently, so `out0`, `out1`, ... never collide. */
  lemma {:induction false} NatToStringInjective(a: nat, b: nat)
    ensures NatToString(a) == NatToString(b) ==> a == b
    decreases a
  {
    if NatToString(a) == NatToString(b) {
      var sa, sb := NatToString(a), NatToString(b);
      if a < 10 {
        assert Digit(a) == sa[0] == sb[0] == Digit(b);
      } else {
        assert b >= 10;
        assert sa[..|sa| - 1] == NatToString(a / 10);
        assert sb[..|sb| - 1] == NatToString(b / 10);
        assert Digit(a % 10) == sa[|sa| - 1] == sb[|sb| - 1] == Digit(b % 10);
        NatToStringInjective(a / 10, b / 10);
      }
    }
  }

  /** `format!("{i}")` for a signed integer (a leading '-' for negatives). */
  function IntToString(i: int): (s: string)
    ensures |s| >= 1
    ensures i >= 0 ==> s == NatToString(i)
    ensures i < 0 ==> s[0] == '-' && s[1..] == NatToString(-i)
  {
    if i < 0 then "-" + NatToString(-i) else NatToString(i)
  }

  /** A printed integer holds only digits and a leading '-'. */
  lemma IntToStringChars(i: int, c: char)
    requires c != '-' && !('0' <= c <= '9')
    ensures c !in IntToString(i)
  {
    var s := IntToString(i);
    if i < 0 {
      assert forall k :: 1 <= k < |s| ==> s[k] == s[1..][k - 1];
    }
  }

  /** Distinct integers print differently. */
  lemma IntToStringInjective(a: int, b: int)
    ensures IntToString(a) == IntToString(b) ==> a == b
  {
    if IntToString(a) == IntToString(b) {
      if a >= 0 && b >= 0 {
        NatToStringInjective(a, b);
      } else if a < 0 && b < 0 {
        NatToStringInjective(-a, -b);
      }
    }
  }

  /** `parts.join(sep)`. */
  function Join(parts: seq<string>, sep: string): string
  {
    if |parts| == 0 then ""
    else if |parts| == 1 then parts[0]
    else parts[0] + sep + Join(parts[1..], sep)
  }

  /** Joining one more part appends the separator and that part: `Vec::push` then `join`. */
  lemma {:induction false} JoinSnoc(parts: seq<string>, x: string, sep: string)
    requires |parts| >= 1
    ensures Join(parts + [x], sep) == Join(parts, sep) + sep + x
    decreases |parts|
  {
    if |parts| == 1 {
      assert (parts + [x])[1..] == [x];
    } else {
      assert (parts + [x])[1..] == parts[1..] + [x];
      JoinSnoc(parts[1..], x, sep);
    }
  }

  /** The text a sequence of writes leaves in a file: the pieces one after another. */
  function Concat(ws: seq<string>): string
  {
    if |ws| == 0 then "" else Concat(ws[..|ws| - 1]) + ws[|ws| - 1]
  }

  /** Writing `a` and then `b` leaves the text of `a` followed by the text of `b`. */
  lemma {:induction false} ConcatAppend(a: seq<string>, b: seq<string>)
    ensures Concat(a + b) == Concat(a) + Concat(b)
    decreases |b|
  {
    if |b| == 0 {
      assert a + b == a;
    } else {
      assert (a + b)[..|a + b| - 1] == a + b[..|b| - 1];
      ConcatAppend(a, b[..|b| - 1]);
    }
  }

  /** The writes one `writeln!` per line makes: each line followed by a line break. */
  function Lines(ls: seq<string>): seq<string>
  {
    seq(|ls|, i requires 0 <= i < |ls| => ls[i] + "\n")
  }

  /** Appending sequences associates; stated once so loops over writes can regroup them. */
  lemma AppendAssoc<T>(a: seq<T>, b: seq<T>, c: seq<T>)
    ensures a + b + c == a + (b + c)
  {
  }

  /** A file whose writes were `o + xs` and that is then written `p` has the writes `o + ys` when `ys` is `xs + p`. */
  lemma Extend<T>(o: seq<T>, xs: seq<T>, p: seq<T>, ys: seq<T>)
    requires ys == xs + p
    ensures o + xs + p == o + ys
  {
  }

  /** Three pieces appended one after another to `o` are `o` followed by the three of them. */
  lemma AppendThree<T>(o: seq<T>, a: seq<T>, b: seq<T>, c: seq<T>)
    ensures o + a + b + c == o + (a + b + c)
  {
  }

  /** The same for four pieces. */
  lemma AppendFour<T>(o: seq<T>, a: seq<T>, b: seq<T>, c: seq<T>, d: seq<T>)
    ensures o + a + b + c + d == o + (a + b + c + d)
  {
    AppendThree(o, a, b, c);
    AppendAssoc(o, a + b + c, d);
  }

  /** The same for six pieces. */
  lemma AppendSix<T>(o: seq<T>, a: seq<T>, b: seq<T>, c: seq<T>, d: seq<T>, e: seq<T>, f: seq<T>)
    ensures o + a + b + c + d + e + f == o + (a + b + c + d + e + f)
  {
    AppendFour(o, a, b, c, d);
    AppendAssoc(o, a + b + c + d, e);
    AppendAssoc(o, a + b + c + d + e, f);
  }

  /** Number of occurrences of `c` in `s`. */
  function CountChar(s: string, c: char): nat
  {
    if |s| == 0 then 0 else CountChar(s[..|s| - 1], c) + (if s[|s| - 1] == c then 1 else 0)
  }

  /** A text without `c` holds none. */
  lemma {:induction false} CountCharNone(s: string, c: char)
    requires forall i :: 0 <= i < |s| ==> s[i] != c
    ensures CountChar(s, c) == 0
    decreases |s|
  {
    if |s| > 0 {
      CountCharNone(s[..|s| - 1], c);
    }
  }

  lemma {:induction false} CountCharAppend(a: string, b: string, c: char)
    ensures CountChar(a + b, c) == CountChar(a, c) + CountChar(b, c)
    decreases |b|
  {
    if |b| == 0 {
      assert a + b == a;
    } else {
      assert (a + b)[..|a + b| - 1] == a + b[..|b| - 1];
      CountCharAppend(a, b[..|b| - 1], c);
    }
  }

  /**
   * When no part contains `c`, the joined text holds exactly one `c` per
   * separator occurrence of `c`, i.e. (|parts| - 1) * CountChar(sep, c).
   */
  lemma {:induction false} CountCharJoin(parts: seq<string>, sep: string, c: char)
    requires |parts| >= 1
    requires forall i :: 0 <= i < |parts| ==> CountChar(parts[i], c) == 0
    ensures CountChar(Join(parts, sep), c) == (|parts| - 1) * CountChar(sep, c)
    decreases |parts|
  {
    if |parts| > 1 {
      CountCharJoin(parts[1..], sep, c);
      CountCharAppend(parts[0], sep, c);
      CountCharAppend(parts[0] + sep, Join(parts[1..], sep), c);
    }
  }

  /**
   * Text joined around a separator character that neither left part holds
   * splits back into the same two parts: the separator is the first `c`.
   */
  lemma SplitAtFirst(x: string, y: string, x2: string, y2: string, c: char)
    requires c !in x && c !in x2
    requires x + [c] + y == x2 + [c] + y2
    ensures x == x2 && y == y2
  {
    var s := x + [c] + y;
    assert s[|x|] == c && s[|x2|] == c;
    assert forall i :: 0 <= i < |x| ==> s[i] == x[i] != c;
    assert forall i :: 0 <= i < |x2| ==> s[i] == x2[i] != c;
    assert |x| == |x2|;
    assert x == s[..|x|] == x2;
    assert y == s[|x| + 1..] == y2;
  }

  /** `s.starts_with(p)`. */
  predicate StartsWith(s: string, p: string) {
    |p| <= |s| && s[..|p|] == p
  }

  /** `s.ends_with(p)`. */
  predicate EndsWith(s: string, p: string) {
    |p| <= |s| && s[|s| - |p|..] == p
  }

  /** `s.contains(pat)`: some suffix of `s` starts with `pat`. */
  predicate Contains(s: string, pat: string)
    decreases |s|
  {
    StartsWith(s, pat) || (|s| > 0 && Contains(s[1..], pat))
  }

  /** A prefix that does not hold the pattern's first character cannot start a match. */
  lemma {:induction false} ContainsAfterPrefix(p: string, s: string, pat: string)
    requires |pat| > 0
    requires forall i :: 0 <= i < |p| ==> p[i] != pat[0]
    ensures Contains(p + s, pat) == Contains(s, pat)
    decreases |p|
  {
    if |p| > 0 {
      assert (p + s)[1..] == p[1..] + s;
      assert (p + s)[0] == p[0];
      ContainsAfterPrefix(p[1..], s, pat);
    } else {
      assert p + s == s;
    }
  }

  /** Every string that starts with the pattern contains it. */
  lemma ContainsWhenStartsWith(s: string, pat: string)
    requires StartsWith(s, pat)
    ensures Contains(s, pat)
  {
  }

  /** A string none of whose characters is the pattern's first one does not contain it. */
  lemma {:induction false} NotContainsWithoutFirstChar(s: string, pat: string)
    requires |pat| > 0
    requires forall i :: 0 <= i < |s| ==> s[i] != pat[0]
    ensures !Contains(s, pat)
    decreases |s|
  {
    if |s| > 0 {
      assert s[0] != pat[0];
      NotContainsWithoutFirstChar(s[1..], pat);
    }
  }

  /** `s.replace(pat, rep)`: every non-overlapping match, left to right, is replaced. */
  function ReplaceAll(s: string, pat: string, rep: string): string
    requires |pat| > 0
    decreases |s|
  {
    if |s| < |pat| then s
    else if s[..|pat|] == pat then rep + ReplaceAll(s[|pat|..], pat, rep)
    else [s[0]] + ReplaceAll(s[1..], pat, rep)
  }

  /** Without the pattern's first character there is nothing to replace. */
  lemma {:induction false} ReplaceAllAbsent(s: string, pat: string, rep: string)
    requires |pat| > 0
    requires pat[0] !in s
    ensures ReplaceAll(s, pat, rep) == s
    decreases |s|
  {
    if |s| >= |pat| {
      assert s[0] != pat[0];
      assert s[..|pat|] != pat;
      assert pat[0] !in s[1..] by {
        assert forall i :: 0 <= i < |s[1..]| ==> s[1..][i] == s[i + 1];
      }
      ReplaceAllAbsent(s[1..], pat, rep);
    }
  }

  /** A leading match is replaced and the rest is processed on its own. */
  lemma ReplaceAllLeading(s: string, pat: string, rep: string)
    requires |pat| > 0
    ensures ReplaceAll(pat + s, pat, rep) == rep + ReplaceAll(s, pat, rep)
  {
    assert (pat + s)[..|pat|] == pat;
    assert (pat + s)[|pat|..] == s;
  }

  predicate IsAscii(c: char) {
    c < 128 as char
  }

  /** `char::to_ascii_uppercase`: only 'a'..'z' change. */
  function AsciiUpper(c: char): (u: char)
    ensures IsAscii(c) == IsAscii(u)
    ensures 'a' <= c <= 'z' ==> 'A' <= u <= 'Z' && u as int == c as int - 32
    ensures !('a' <= c <= 'z') ==> u == c
  {
    if 'a' <= c <= 'z' then (c as int - 32) as char else c
  }

  /** `str::to_ascii_uppercase`. */
  function ToAsciiUppercase(s: string): (r: string)
    ensures |r| == |s|
    ensures forall i :: 0 <= i < |s| ==> r[i] == AsciiUpper(s[i])
  {
    seq(|s|, i requires 0 <= i < |s| => AsciiUpper(s[i]))
  }

  /** `char::is_ascii_whitespace`: space, tab, line feed, form feed, carriage return. */
  predicate IsAsciiWhitespace(c: char) {
    c == ' ' || c == '\t' || c == '\n' || c == '\U{000C}' || c == '\r'
  }
}
