/** The handful of Python `str` operations the compile command relies on:
    `split` on one character, `join`, `replace`, `lower`, `splitlines` and
    the decimal rendering of an integer. Strings are sequences of characters. */
module Text {

  /** Number of occurrences of `c` in `s`. */
  function Count(s: string, c: char): (n: nat)
  {
    if |s| == 0 then 0 else (if s[0] == c then 1 else 0) + Count(s[1..], c)
  }

  /** `sep.join(parts)`: the parts with `sep` between consecutive ones. */
  function Join(parts: seq<string>, sep: string): (r: string)
  {
    if |parts| == 0 then ""
    else if |parts| == 1 then parts[0]
    else parts[0] + sep + Join(parts[1..], sep)
  }

  /** No part contains the separator `d`. */
  predicate NoneContain(parts: seq<string>, d: char)
  {
    forall i :: 0 <= i < |parts| ==> d !in parts[i]
  }

  /** `s.split(d)` for a one-character separator: every maximal run between
      separators is a part, empty parts included, so there is always at least one. */
  function Split(s: string, d: char): (r: seq<string>)
    ensures |r| >= 1
    ensures NoneContain(r, d)
    decreases |s|
  {
    if |s| == 0 then [""]
    else
      var rest := Split(s[1..], d);
      if s[0] == d then [""] + rest
      else [[s[0]] + rest[0]] + rest[1..]
  }

  lemma JoinCons(c: char, xs: seq<string>, sep: string)
    requires |xs| >= 1
    ensures Join([[c] + xs[0]] + xs[1..], sep) == [c] + Join(xs, sep)
  {
    var ys := [[c] + xs[0]] + xs[1..];
    assert ys[1..] == xs[1..];
  }

  /** Splitting and joining back on the same separator gives back the string. */
  lemma {:induction false} JoinSplit(s: string, d: char)
    ensures Join(Split(s, d), [d]) == s
    decreases |s|
  {
    if |s| > 0 {
      var rest := Split(s[1..], d);
      JoinSplit(s[1..], d);
      if s[0] == d {
        assert ([""] + rest)[1..] == rest;
      } else {
        JoinCons(s[0], rest, [d]);
      }
      assert s == [s[0]] + s[1..];
    }
  }

  /** A prefix free of the separator becomes exactly the first part. */
  lemma {:induction false} SplitPrefix(a: string, d: char, b: string)
    requires d !in a
    ensures Split(a + [d] + b, d) == [a] + Split(b, d)
    decreases |a|
  {
    var s := a + [d] + b;
    if |a| == 0 {
      assert s[1..] == b;
    } else {
      assert s[1..] == a[1..] + [d] + b;
      SplitPrefix(a[1..], d, b);
      assert [a[0]] + a[1..] == a;
    }
  }

  /** A string without the separator is a single part. */
  lemma {:induction false} SplitNoSeparator(s: string, d: char)
    requires d !in s
    ensures Split(s, d) == [s]
    decreases |s|
  {
    if |s| > 0 {
      SplitNoSeparator(s[1..], d);
      assert [s[0]] + s[1..] == s;
    }
  }

  /** Joining separator-free parts and splitting the result gives the parts back. */
  lemma {:induction false} SplitJoin(parts: seq<string>, d: char)
    requires |parts| >= 1
    requires NoneContain(parts, d)
    ensures Split(Join(parts, [d]), d) == parts
    decreases |parts|
  {
    if |parts| == 1 {
      SplitNoSeparator(parts[0], d);
    } else {
      SplitJoin(parts[1..], d);
      SplitPrefix(parts[0], d, Join(parts[1..], [d]));
      assert [parts[0]] + parts[1..] == parts;
    }
  }

  lemma JoinUnfold(parts: seq<string>, sep: string, tail: string)
    requires |parts| > 1
    ensures Join(parts, sep) + sep + tail == parts[0] + sep + (Join(parts[1..], sep) + sep + tail)
  {
  }

  /** Joining separator-free parts in front of a tail: the parts come first,
      then whatever the tail splits into. */
  lemma {:induction false} SplitJoinThen(parts: seq<string>, d: char, tail: string)
    requires |parts| >= 1
    requires NoneContain(parts, d)
    ensures Split(Join(parts, [d]) + [d] + tail, d) == parts + Split(tail, d)
    decreases |parts|
  {
    if |parts| == 1 {
      SplitPrefix(parts[0], d, tail);
    } else {
      var rest := Join(parts[1..], [d]);
      assert NoneContain(parts[1..], d) by {
        forall i | 0 <= i < |parts[1..]| ensures d !in parts[1..][i] {
          assert parts[1..][i] == parts[i + 1];
        }
      }
      SplitJoinThen(parts[1..], d, tail);
      JoinUnfold(parts, [d], tail);
      assert d !in parts[0];
      SplitPrefix(parts[0], d, rest + [d] + tail);
      assert [parts[0]] + (parts[1..] + Split(tail, d)) == parts + Split(tail, d);
    }
  }

  /** There is one more part than there are separators. */
  lemma {:induction false} SplitCount(s: string, d: char)
    ensures |Split(s, d)| == Count(s, d) + 1
    decreases |s|
  {
    if |s| > 0 {
      SplitCount(s[1..], d);
    }
  }

  /** `s.replace(pat, rep)`: every leftmost, non-overlapping occurrence of `pat`
      replaced by `rep`. The compile command only passes non-empty patterns. */
  function Replace(s: string, pat: string, rep: string): (r: string)
    requires |pat| > 0
    decreases |s|
  {
    if |s| < |pat| then s
    else if s[..|pat|] == pat then rep + Replace(s[|pat|..], pat, rep)
    else [s[0]] + Replace(s[1..], pat, rep)
  }

  /** `pat` occurs in `s` starting at index `i`. */
  predicate OccursAt(pat: string, s: string, i: nat)
  {
    i + |pat| <= |s| && s[i..i + |pat|] == pat
  }

  /** `pat` occurs somewhere in `s`. */
  predicate Occurs(pat: string, s: string)
  {
    exists i: nat | i <= |s| :: OccursAt(pat, s, i)
  }

  /** Replacing a pattern that does not occur changes nothing. */
  lemma {:induction false} ReplaceAbsent(s: string, pat: string, rep: string)
    requires |pat| > 0 && !Occurs(pat, s)
    ensures Replace(s, pat, rep) == s
    decreases |s|
  {
    if |s| >= |pat| {
      assert !OccursAt(pat, s, 0);
      assert s[0..|pat|] == s[..|pat|];
      assert !Occurs(pat, s[1..]) by {
        forall i: nat | i + |pat| <= |s[1..]| ensures !OccursAt(pat, s[1..], i) {
          assert !OccursAt(pat, s, i + 1);
          assert s[1..][i..i + |pat|] == s[i + 1..i + 1 + |pat|];
        }
      }
      ReplaceAbsent(s[1..], pat, rep);
      assert [s[0]] + s[1..] == s;
    }
  }

  /** Every character of a replaced string comes from the original or from the replacement. */
  lemma {:induction false} ReplaceChars(s: string, pat: string, rep: string)
    requires |pat| > 0
    ensures forall c :: c in Replace(s, pat, rep) ==> c in s || c in rep
    decreases |s|
  {
    if |s| >= |pat| {
      if s[..|pat|] == pat {
        ReplaceChars(s[|pat|..], pat, rep);
        assert forall c :: c in s[|pat|..] ==> c in s;
      } else {
        ReplaceChars(s[1..], pat, rep);
        assert forall c :: c in s[1..] ==> c in s;
      }
    }
  }

  /** When the replacement starts like the pattern, replacing keeps the first character. */
  lemma {:induction false} ReplaceKeepsHead(t: string, pat: string, rep: string)
    requires |pat| > 0 && |rep| > 0 && rep[0] == pat[0] && |t| > 0
    ensures |Replace(t, pat, rep)| > 0 && Replace(t, pat, rep)[0] == t[0]
  {
  }

  /** Replacing "Qt" by "Qt5" is undone by replacing "Qt5" by "Qt": no new
      "Qt5" can straddle an inserted one, so the renaming loses nothing. */
  lemma {:induction false} QtRenameUndo(s: string)
    ensures Replace(Replace(s, "Qt", "Qt5"), "Qt5", "Qt") == s
    decreases |s|
  {
    var r := Replace(s, "Qt", "Qt5");
    if |s| < 2 {
      assert r == s;
    } else if s[..2] == "Qt" {
      QtRenameUndo(s[2..]);
      assert r == "Qt5" + Replace(s[2..], "Qt", "Qt5");
      assert r[..3] == "Qt5";
      assert r[3..] == Replace(s[2..], "Qt", "Qt5");
      assert s == "Qt" + s[2..];
    } else {
      var tail := Replace(s[1..], "Qt", "Qt5");
      QtRenameUndo(s[1..]);
      assert r == [s[0]] + tail;
      ReplaceKeepsHead(s[1..], "Qt", "Qt5");
      assert tail[0] == s[1];
      assert s[0] != 'Q' || s[1] != 't';
      assert r[0] == s[0] && r[1] == s[1];
      assert |r| < 3 || r[..3] != "Qt5" by {
        if |r| >= 3 {
          assert r[..3][0] == r[0] && r[..3][1] == r[1];
        }
      }
      assert r[1..] == tail;
      assert s == [s[0]] + s[1..];
    }
  }

  /** Two names that rename to the same string were the same name. */
  lemma QtRenameInjective(a: string, b: string)
    requires Replace(a, "Qt", "Qt5") == Replace(b, "Qt", "Qt5")
    ensures a == b
  {
    QtRenameUndo(a);
    QtRenameUndo(b);
  }

  /** Deleting every `c` (`s.replace(c, '')`) leaves no `c` and keeps every
      other character, as many times as it occurred. */
  lemma {:induction false} DeleteChar(s: string, c: char)
    ensures c !in Replace(s, [c], "")
    ensures |Replace(s, [c], "")| == |s| - Count(s, c)
    ensures forall x :: x != c ==> Count(Replace(s, [c], ""), x) == Count(s, x)
    decreases |s|
  {
    if |s| > 0 {
      DeleteChar(s[1..], c);
      var tail := Replace(s[1..], [c], "");
      if s[0] == c {
        assert s[..1] == [c];
        assert Replace(s, [c], "") == tail;
      } else {
        assert s[..1] != [c];
        var r := [s[0]] + tail;
        assert Replace(s, [c], "") == r;
        assert r[1..] == tail;
      }
    }
  }

  /** Python's `str.lower` restricted to ASCII letters. */
  function LowerChar(c: char): (l: char)
  {
    if 'A' <= c <= 'Z' then (c as int - 'A' as int + 'a' as int) as char else c
  }

  function Lower(s: string): (r: string)
  {
    seq(|s|, i requires 0 <= i < |s| => LowerChar(s[i]))
  }

  /** Line boundaries recognised by Python's `str.splitlines`. */
  predicate IsLineBreak(c: char)
  {
    c == '\n' || c == '\r' || c == '\U{000B}' || c == '\U{000C}' || c == '\U{001C}'
    || c == '\U{001D}' || c == '\U{001E}' || c == '\U{0085}' || c == '\U{2028}' || c == '\U{2029}'
  }

  /** Index of the first line boundary in `s`, or `|s|` when there is none. */
  function LineEnd(s: string): (i: nat)
    ensures i <= |s|
    ensures forall j :: 0 <= j < i ==> !IsLineBreak(s[j])
    ensures i < |s| ==> IsLineBreak(s[i])
  {
    if |s| == 0 then 0
    else if IsLineBreak(s[0]) then 0
    else 1 + LineEnd(s[1..])
  }

  /** `s.splitlines()`: lines without their terminators; "\r\n" ends one line;
      a final terminator does not start an empty last line. */
  function SplitLines(s: string): (r: seq<string>)
    ensures |s| == 0 <==> |r| == 0
    ensures forall k, j :: 0 <= k < |r| && 0 <= j < |r[k]| ==> !IsLineBreak(r[k][j])
    decreases |s|
  {
    if |s| == 0 then []
    else
      var i := LineEnd(s);
      if i == |s| then [s]
      else
        var next := if s[i] == '\r' && i + 1 < |s| && s[i + 1] == '\n' then i + 2 else i + 1;
        [s[..i]] + SplitLines(s[next..])
  }

  /** The only line boundary in `s` is "\n". */
  predicate OnlyNewlines(s: string)
  {
    forall j :: 0 <= j < |s| && IsLineBreak(s[j]) ==> s[j] == '\n'
  }

  lemma OnlyNewlinesSuffix(s: string, k: nat)
    requires OnlyNewlines(s) && k <= |s|
    ensures OnlyNewlines(s[k..])
  {
    forall j | 0 <= j < |s[k..]| && IsLineBreak(s[k..][j]) ensures s[k..][j] == '\n' {
      assert s[k..][j] == s[k + j];
    }
  }

  /** The final terminator, if the text ends with one. */
  function TrailingNewline(s: string): (t: string)
  {
    if |s| > 0 && s[|s| - 1] == '\n' then "\n" else ""
  }

  lemma JoinFront(x: string, lines: seq<string>, sep: string)
    requires |lines| >= 1
    ensures Join([x] + lines, sep) == x + sep + Join(lines, sep)
  {
    assert ([x] + lines)[1..] == lines;
  }

  /** A "\n" at the first line boundary ends the first line. */
  lemma SplitLinesAtNewline(s: string)
    requires LineEnd(s) < |s| && s[LineEnd(s)] == '\n'
    ensures SplitLines(s) == [s[..LineEnd(s)]] + SplitLines(s[LineEnd(s) + 1..])
  {
  }

  /** One line, a terminator, and the lines of the rest. */
  lemma ReassembleBeforeRest(head: string, rest: string, lines: seq<string>, sep: string, tail: string)
    requires |lines| > 0
    requires Join(lines, sep) + tail == rest
    ensures Join([head] + lines, sep) + tail == head + sep + rest
  {
    JoinFront(head, lines, sep);
  }

  /** Reassembling text around its first "\n" boundary. */
  lemma ReassembleAtNewline(s: string, i: nat, lines: seq<string>)
    requires i < |s| && s[i] == '\n'
    requires Join(lines, "\n") + TrailingNewline(s[i + 1..]) == s[i + 1..]
    requires |lines| == 0 <==> i + 1 == |s|
    ensures Join([s[..i]] + lines, "\n") + TrailingNewline(s) == s
  {
    var head, rest := s[..i], s[i + 1..];
    assert s == head + "\n" + rest;
    if |rest| > 0 {
      assert TrailingNewline(s) == TrailingNewline(rest) by {
        assert s[|s| - 1] == rest[|rest| - 1];
      }
      ReassembleBeforeRest(head, rest, lines, "\n", TrailingNewline(rest));
    }
  }

  /** For text whose only line boundary is "\n", the lines joined with "\n"
      (plus the final newline, if any) give back the text. */
  lemma {:induction false} SplitLinesJoin(s: string)
    requires OnlyNewlines(s)
    ensures Join(SplitLines(s), "\n") + TrailingNewline(s) == s
    decreases |s|
  {
    if |s| > 0 {
      var i := LineEnd(s);
      if i < |s| {
        OnlyNewlinesSuffix(s, i + 1);
        SplitLinesJoin(s[i + 1..]);
        SplitLinesAtNewline(s);
        ReassembleAtNewline(s, i, SplitLines(s[i + 1..]));
      }
    }
  }

  /** Every line boundary in `s` is part of a "\r\n" pair, as in the output
      of Windows console programs. */
  predicate OnlyCrlf(s: string)
  {
    forall j :: 0 <= j < |s| && IsLineBreak(s[j]) ==> InPair(s, j)
  }

  /** Position `j` holds one half of a "\r\n" pair. */
  predicate InPair(s: string, j: nat)
    requires j < |s|
  {
    || (s[j] == '\r' && j + 1 < |s| && s[j + 1] == '\n')
    || (s[j] == '\n' && 0 < j && s[j - 1] == '\r')
  }

  /** The final "\r\n", if the text ends with one. */
  function TrailingCrlf(s: string): (t: string)
  {
    if |s| >= 2 && s[|s| - 2] == '\r' && s[|s| - 1] == '\n' then "\r\n" else ""
  }

  /** Under `OnlyCrlf` the first line boundary is the '\r' of a pair. */
  lemma CrlfAtLineEnd(s: string)
    requires OnlyCrlf(s) && LineEnd(s) < |s|
    ensures LineEnd(s) + 1 < |s| && s[LineEnd(s)] == '\r' && s[LineEnd(s) + 1] == '\n'
  {
    var i := LineEnd(s);
    assert IsLineBreak(s[i]) && InPair(s, i);
    if 0 < i {
      assert !IsLineBreak(s[i - 1]);
    }
  }

  /** The text after a "\r\n" pair again has only "\r\n" boundaries. */
  lemma OnlyCrlfAfterPair(s: string, i: nat)
    requires OnlyCrlf(s) && i + 1 < |s| && s[i + 1] == '\n'
    ensures OnlyCrlf(s[i + 2..])
  {
    var rest := s[i + 2..];
    forall j | 0 <= j < |rest| && IsLineBreak(rest[j]) ensures InPair(rest, j) {
      assert rest[j] == s[i + 2 + j];
      assert InPair(s, i + 2 + j);
      if j + 1 < |rest| { assert rest[j + 1] == s[i + 2 + j + 1]; }
      if 0 < j { assert rest[j - 1] == s[i + 2 + j - 1]; }
    }
  }

  /** A "\r\n" at the first line boundary ends the first line. */
  lemma SplitLinesAtCrlf(s: string)
    requires LineEnd(s) + 1 < |s| && s[LineEnd(s)] == '\r' && s[LineEnd(s) + 1] == '\n'
    ensures SplitLines(s) == [s[..LineEnd(s)]] + SplitLines(s[LineEnd(s) + 2..])
  {
  }

  /** Text that continues after a "\r\n" ends the way its continuation does. */
  lemma TrailingCrlfOfSuffix(s: string, k: nat)
    requires 2 <= k < |s| && s[k - 1] == '\n'
    ensures TrailingCrlf(s) == TrailingCrlf(s[k..])
  {
    var rest := s[k..];
    assert s[|s| - 1] == rest[|rest| - 1];
    if |rest| >= 2 {
      assert s[|s| - 2] == rest[|rest| - 2];
    } else {
      assert s[|s| - 2] == '\n';
    }
  }

  /** Reassembling text around its first "\r\n" boundary. */
  lemma ReassembleAtCrlf(s: string, i: nat, lines: seq<string>)
    requires i + 1 < |s| && s[i] == '\r' && s[i + 1] == '\n'
    requires Join(lines, "\r\n") + TrailingCrlf(s[i + 2..]) == s[i + 2..]
    requires |lines| == 0 <==> i + 2 == |s|
    ensures Join([s[..i]] + lines, "\r\n") + TrailingCrlf(s) == s
  {
    var head, rest := s[..i], s[i + 2..];
    assert s == head + "\r\n" + rest;
    if |rest| == 0 {
      assert TrailingCrlf(s) == "\r\n";
    } else {
      TrailingCrlfOfSuffix(s, i + 2);
      ReassembleBeforeRest(head, rest, lines, "\r\n", TrailingCrlf(rest));
    }
  }

  /** For text whose line boundaries are all "\r\n" pairs, the lines joined
      with "\r\n" (plus the final "\r\n", if any) give back the text. */
  lemma {:induction false} SplitLinesJoinCrlf(s: string)
    requires OnlyCrlf(s)
    ensures Join(SplitLines(s), "\r\n") + TrailingCrlf(s) == s
    decreases |s|
  {
    if |s| > 0 {
      var i := LineEnd(s);
      if i < |s| {
        CrlfAtLineEnd(s);
        OnlyCrlfAfterPair(s, i);
        SplitLinesAtCrlf(s);
        SplitLinesJoinCrlf(s[i + 2..]);
        ReassembleAtCrlf(s, i, SplitLines(s[i + 2..]));
      } else {
        assert s[|s| - 1] != '\n';
      }
    }
  }

  function DigitChar(d: nat): (c: char)
    requires d < 10
  {
    ('0' as int + d) as char
  }

  /** `str(n)` for a natural number. */
  function NatToString(n: nat): (r: string)
    ensures |r| >= 1
    ensures forall i :: 0 <= i < |r| ==> '0' <= r[i] <= '9'
  {
    if n < 10 then [DigitChar(n)] else NatToString(n / 10) + [DigitChar(n % 10)]
  }

  /** `str(i)` for an integer: a minus sign before the digits of a negative value. */
  function IntToString(i: int): (r: string)
  {
    if i < 0 then "-" + NatToString(-i) else NatToString(i)
  }

  /** Reads a string of decimal digits back as a number. */
  function ParseNat(s: string): (n: nat)
    requires forall i :: 0 <= i < |s| ==> '0' <= s[i] <= '9'
  {
    if |s| == 0 then 0 else ParseNat(s[..|s| - 1]) * 10 + (s[|s| - 1] as int - '0' as int)
  }

  lemma {:induction false} ParseNatToString(n: nat)
    ensures ParseNat(NatToString(n)) == n
  {
    if n >= 10 {
      ParseNatToString(n / 10);
      var s := NatToString(n);
      assert s[..|s| - 1] == NatToString(n / 10);
    }
  }

  lemma IntToStringSign(i: int)
    ensures |IntToString(i)| > 0 && (IntToString(i)[0] == '-' <==> i < 0)
  {
  }

  /** Distinct integers render differently. */
  lemma IntToStringInjective(a: int, b: int)
    requires IntToString(a) == IntToString(b)
    ensures a == b
  {
    ParseNatToString(if a < 0 then -a else a);
    ParseNatToString(if b < 0 then -b else b);
    IntToStringSign(a);
    IntToStringSign(b);
    if a < 0 && b < 0 {
      var sa := IntToString(a);
      assert NatToString(-a) == sa[1..];
      assert NatToString(-b) == sa[1..];
    }
  }
}
