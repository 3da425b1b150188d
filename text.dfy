/** The string operations the readout code relies on: Python's `str(int)`,
    `int()` on a digit run, `str.lower`, `in` on strings, `str.split`,
    `str.strip`, `str.translate` deleting characters, `' '.join` and
    `re.findall(r'\d+', ...)`. Only ASCII is modelled. */
module Text {

  // ---------------------------------------------------------------- digits

  predicate IsDigit(c: char) { '0' <= c <= '9' }

  function DigitValue(c: char): (d: nat)
    requires IsDigit(c)
    ensures d < 10
  {
    c as int - '0' as int
  }

  function DigitChar(d: nat): (c: char)
    requires d < 10
    ensures IsDigit(c) && DigitValue(c) == d
  {
    ('0' as int + d) as char
  }

  predicate AllDigits(s: string) {
    forall i :: 0 <= i < |s| ==> IsDigit(s[i])
  }

  predicate NoDigits(s: string) {
    forall i :: 0 <= i < |s| ==> !IsDigit(s[i])
  }

  /** Python's `int()` on a run of decimal digits, most significant first. */
  function DigitsValue(s: string): nat
    requires AllDigits(s)
  {
    if s == [] then 0 else DigitsValue(s[..|s| - 1]) * 10 + DigitValue(s[|s| - 1])
  }

  /** Python's `str()` of a natural number: decimal, no leading zero. */
  function NatToString(n: nat): (s: string)
    ensures AllDigits(s) && DigitsValue(s) == n
    ensures |s| == 1 <==> n < 10
    ensures |s| >= 1 && (s[0] == '0' <==> n == 0)
  {
    if n < 10 then [DigitChar(n)]
    else
      var s := NatToString(n / 10) + [DigitChar(n % 10)];
      assert s[..|s| - 1] == NatToString(n / 10);
      s
  }

  /** Python's `str()` of an integer: a minus sign, then the digits of the magnitude. */
  function IntToString(i: int): (s: string)
    ensures |s| >= 1
    ensures i >= 0 ==> s == NatToString(i)
    ensures i < 0 ==> s == "-" + NatToString(-i)
  {
    if i < 0 then "-" + NatToString(-i) else NatToString(i)
  }

  /** Reading back the digits `str()` produces gives the number again, and
      different numbers have different decimal strings. */
  lemma {:induction false} NatToStringInjective(m: nat, n: nat)
    requires NatToString(m) == NatToString(n)
    ensures m == n
  {
    assert DigitsValue(NatToString(m)) == m;
  }

  /** Different integers have different `str()` texts. */
  lemma IntToStringInjective(a: int, b: int)
    requires IntToString(a) == IntToString(b)
    ensures a == b
  {
    var s := IntToString(a);
    if a < 0 && b < 0 {
      assert s[1..] == NatToString(-a) == NatToString(-b);
      NatToStringInjective(-a, -b);
    } else if a >= 0 && b >= 0 {
      NatToStringInjective(a, b);
    }
  }

  /** A canonical digit string (no leading zero) is what `str()` prints for its value. */
  lemma {:induction false} NatToStringOfDigits(s: string)
    requires AllDigits(s) && |s| >= 1 && (s[0] == '0' ==> |s| == 1)
    ensures NatToString(DigitsValue(s)) == s
    decreases |s|
  {
    if |s| == 1 {
    } else {
      var init := s[..|s| - 1];
      assert init[0] == s[0];
      NatToStringOfDigits(init);
      var n := DigitsValue(s);
      assert n / 10 == DigitsValue(init) && n % 10 == DigitValue(s[|s| - 1]);
      assert DigitChar(n % 10) == s[|s| - 1];
      assert s == init + [s[|s| - 1]];
    }
  }

  // ---------------------------------------------------------------- case

  function LowerChar(c: char): char {
    if 'A' <= c <= 'Z' then (c as int - 'A' as int + 'a' as int) as char else c
  }

  /** `str.lower()` restricted to ASCII letters. */
  function Lower(s: string): (r: string)
    ensures |r| == |s|
    ensures forall i :: 0 <= i < |s| ==> r[i] == LowerChar(s[i])
  {
    if s == [] then [] else [LowerChar(s[0])] + Lower(s[1..])
  }

  // ---------------------------------------------------------------- search

  predicate StartsWith(s: string, prefix: string) {
    |prefix| <= |s| && s[..|prefix|] == prefix
  }

  /** Python's `needle in hay` for strings. */
  predicate Contains(hay: string, needle: string)
    decreases |hay|
  {
    StartsWith(hay, needle) || (hay != [] && Contains(hay[1..], needle))
  }

  /** `needle` occurs in `hay` starting at position `k`. */
  predicate OccursAt(hay: string, needle: string, k: int) {
    0 <= k <= |hay| - |needle| && hay[k..k + |needle|] == needle
  }

  /** `needle in hay` holds exactly when `needle` occurs at some position. */
  lemma {:induction false} ContainsAt(hay: string, needle: string)
    ensures Contains(hay, needle) <==> exists k :: OccursAt(hay, needle, k)
  {
    if StartsWith(hay, needle) {
      assert OccursAt(hay, needle, 0);
    } else if hay != [] {
      ContainsAt(hay[1..], needle);
      if Contains(hay[1..], needle) {
        var k :| OccursAt(hay[1..], needle, k);
        assert hay[k + 1..k + 1 + |needle|] == hay[1..][k..k + |needle|];
        assert OccursAt(hay, needle, k + 1);
      }
      if exists k :: OccursAt(hay, needle, k) {
        var k :| OccursAt(hay, needle, k);
        assert k > 0;
        assert hay[1..][k - 1..k - 1 + |needle|] == hay[k..k + |needle|];
        assert OccursAt(hay[1..], needle, k - 1);
      }
    }
  }

  /** `s.split(sep)[0]` for a non-empty separator: the text before the first
      occurrence of `sep`, or all of `s` when there is none. */
  function BeforeFirst(s: string, sep: string): (r: string)
    requires |sep| > 0
    ensures r <= s
    ensures forall k :: 0 <= k < |r| ==> !StartsWith(s[k..], sep)
    ensures r == s || StartsWith(s[|r|..], sep)
  {
    if StartsWith(s, sep) || s == [] then []
    else
      var r := [s[0]] + BeforeFirst(s[1..], sep);
      assert forall k :: 1 <= k < |r| ==> s[k..] == s[1..][k - 1..];
      r
  }

  // ---------------------------------------------------------------- split / join

  /** `s.split(sep)` for a one-character separator: the pieces between
      separators, always at least one (possibly empty). */
  function Split(s: string, sep: char): (parts: seq<string>)
    ensures |parts| >= 1
    ensures forall i :: 0 <= i < |parts| ==> sep !in parts[i]
  {
    if s == [] then [[]]
    else
      var rest := Split(s[1..], sep);
      if s[0] == sep then [[]] + rest else [[s[0]] + rest[0]] + rest[1..]
  }

  /** `sep.join(parts)`. */
  function Join(parts: seq<string>, sep: char): string {
    if parts == [] then []
    else if |parts| == 1 then parts[0]
    else parts[0] + [sep] + Join(parts[1..], sep)
  }

  /** Splitting and joining again gives back the text. */
  lemma {:induction false} JoinSplit(s: string, sep: char)
    ensures Join(Split(s, sep), sep) == s
  {
    if s != [] {
      JoinSplit(s[1..], sep);
      var rest := Split(s[1..], sep);
      assert s == [s[0]] + s[1..];
      if s[0] == sep {
        assert ([[]] + rest)[1..] == rest;
      } else {
        var parts := [[s[0]] + rest[0]] + rest[1..];
        if |rest| > 1 {
          assert parts[1..] == rest[1..];
          assert Join(rest, sep) == rest[0] + [sep] + Join(rest[1..], sep);
          assert Join(parts, sep) == [s[0]] + rest[0] + [sep] + Join(rest[1..], sep);
        }
      }
    }
  }

  /** Text without separators splits into a single piece. */
  lemma {:induction false} SplitNoSeparator(s: string, sep: char)
    requires sep !in s
    ensures Split(s, sep) == [s]
  {
    if s != [] {
      assert s[0] != sep && sep !in s[1..];
      SplitNoSeparator(s[1..], sep);
      assert [s[0]] + s[1..] == s;
    }
  }

  /** A piece without separators followed by a separator splits off first. */
  lemma {:induction false} SplitAfterPiece(a: string, sep: char, b: string)
    requires sep !in a
    ensures Split(a + [sep] + b, sep) == [a] + Split(b, sep)
  {
    if a == [] {
      assert ([sep] + b)[1..] == b;
    } else {
      var s := a + [sep] + b;
      assert s[0] == a[0] && s[1..] == a[1..] + [sep] + b;
      SplitAfterPiece(a[1..], sep, b);
      assert [a[0]] + a[1..] == a;
    }
  }

  // ---------------------------------------------------------------- deleting characters

  /** The characters `' \r\n'` that the readout code deletes from every line. */
  predicate IsLineNoise(c: char) { c == ' ' || c == '\r' || c == '\n' }

  /** `line.translate({ord(i): None for i in ' \r\n'})`: every space,
      carriage return and line feed removed, wherever it stands. */
  function Clean(s: string): (r: string)
    ensures forall i :: 0 <= i < |r| ==> !IsLineNoise(r[i])
    ensures |r| <= |s|
  {
    if s == [] then [] else (if IsLineNoise(s[0]) then [] else [s[0]]) + Clean(s[1..])
  }

  /** Deleting characters distributes over concatenation. */
  lemma {:induction false} CleanAppend(a: string, b: string)
    ensures Clean(a + b) == Clean(a) + Clean(b)
  {
    if a != [] {
      var ab := a + b;
      assert ab[0] == a[0] && ab[1..] == a[1..] + b;
      CleanAppend(a[1..], b);
      var head := if IsLineNoise(a[0]) then [] else [a[0]];
      assert Clean(ab) == head + Clean(ab[1..]);
      assert Clean(a) == head + Clean(a[1..]);
    } else {
      assert a + b == b;
    }
  }

  /** Text made only of the deleted characters disappears entirely. */
  lemma {:induction false} CleanAllNoise(s: string)
    requires forall i :: 0 <= i < |s| ==> IsLineNoise(s[i])
    ensures Clean(s) == []
  {
    if s != [] {
      CleanAllNoise(s[1..]);
    }
  }

  /** Text without any of the deleted characters is left as it is. */
  lemma {:induction false} CleanKeeps(s: string)
    requires forall i :: 0 <= i < |s| ==> !IsLineNoise(s[i])
    ensures Clean(s) == s
  {
    if s != [] {
      CleanKeeps(s[1..]);
    }
  }

  // ---------------------------------------------------------------- strip

  /** `s.lstrip(c)`: every leading `c` removed. */
  function StripLeft(s: string, c: char): (r: string)
    ensures |r| <= |s| && r == s[|s| - |r|..]
    ensures forall k :: 0 <= k < |s| - |r| ==> s[k] == c
    ensures r == [] || r[0] != c
  {
    if s != [] && s[0] == c then StripLeft(s[1..], c) else s
  }

  /** `s.rstrip(c)`: every trailing `c` removed. */
  function StripRight(s: string, c: char): (r: string)
    ensures |r| <= |s| && r == s[..|r|]
    ensures forall k :: |r| <= k < |s| ==> s[k] == c
    ensures r == [] || r[|r| - 1] != c
  {
    if s != [] && s[|s| - 1] == c then StripRight(s[..|s| - 1], c) else s
  }

  /** `s.strip(c)`: `c` removed repeatedly from both ends. */
  function Strip(s: string, c: char): string {
    StripRight(StripLeft(s, c), c)
  }

  /** What `strip` keeps starts and ends with a character other than `c`. */
  lemma StripEnds(s: string, c: char)
    ensures var r := Strip(s, c); r == [] || (r[0] != c && r[|r| - 1] != c)
  {
    var l := StripLeft(s, c);
    var r := StripRight(l, c);
    if r != [] {
      assert r[0] == l[0];
    }
  }

  // ---------------------------------------------------------------- digit runs

  /** Length of the longest prefix of `s` made of digits. */
  function DigitPrefix(s: string): (k: nat)
    ensures k <= |s| && AllDigits(s[..k])
    ensures k < |s| ==> !IsDigit(s[k])
  {
    if s == [] || !IsDigit(s[0]) then 0
    else
      var k := 1 + DigitPrefix(s[1..]);
      assert forall j :: 1 <= j < k ==> s[..k][j] == s[1..][..k - 1][j - 1];
      k
  }

  /** `re.findall(r'\d+', s)`: the maximal runs of digits, in order. */
  function DigitRuns(s: string): (runs: seq<string>)
    ensures forall i :: 0 <= i < |runs| ==> |runs[i]| > 0 && AllDigits(runs[i])
    decreases |s|
  {
    if s == [] then []
    else if !IsDigit(s[0]) then DigitRuns(s[1..])
    else
      var k := DigitPrefix(s);
      [s[..k]] + DigitRuns(s[k..])
  }

  /** `findall` finds nothing exactly when the text has no digit. */
  lemma {:induction false} DigitRunsEmpty(s: string)
    ensures DigitRuns(s) == [] <==> NoDigits(s)
    decreases |s|
  {
    if s != [] && !IsDigit(s[0]) {
      DigitRunsEmpty(s[1..]);
      assert forall i :: 1 <= i < |s| ==> s[i] == s[1..][i - 1];
    }
  }

  /** A prefix without digits does not change the runs found. */
  lemma {:induction false} DigitRunsSkip(p: string, s: string)
    requires NoDigits(p)
    ensures DigitRuns(p + s) == DigitRuns(s)
  {
    if p != [] {
      var ps := p + s;
      assert ps[0] == p[0] && ps[1..] == p[1..] + s;
      assert !IsDigit(ps[0]);
      DigitRunsSkip(p[1..], s);
      assert DigitRuns(ps) == DigitRuns(ps[1..]);
    } else {
      assert p + s == s;
    }
  }

  /** The digit prefix of a run of digits followed by a non-digit (or the end) is that run. */
  lemma {:induction false} DigitPrefixOfRun(d: string, rest: string)
    requires AllDigits(d)
    requires rest == [] || !IsDigit(rest[0])
    ensures DigitPrefix(d + rest) == |d|
  {
    if d != [] {
      var s := d + rest;
      assert s[0] == d[0] && s[1..] == d[1..] + rest;
      DigitPrefixOfRun(d[1..], rest);
    } else {
      assert d + rest == rest;
    }
  }

  /** A non-empty run of digits followed by a non-digit (or the end) is found as one run. */
  lemma DigitRunsFirst(d: string, rest: string)
    requires |d| > 0 && AllDigits(d)
    requires rest == [] || !IsDigit(rest[0])
    ensures DigitRuns(d + rest) == [d] + DigitRuns(rest)
  {
    var s := d + rest;
    DigitPrefixOfRun(d, rest);
    assert s[0] == d[0];
    assert s[..|d|] == d && s[|d|..] == rest;
  }

  /** `' '.join(s)`: the characters of `s` with a space between each two. */
  function SpaceJoin(s: string): (r: string)
    ensures |s| > 0 ==> |r| == 2 * |s| - 1
    ensures s == [] ==> r == []
    ensures forall k :: 0 <= k < |r| && k % 2 == 0 ==> r[k] == s[k / 2]
    ensures forall k :: 0 <= k < |r| && k % 2 == 1 ==> r[k] == ' '
  {
    if |s| <= 1 then s
    else
      var t := SpaceJoin(s[1..]);
      var r := [s[0], ' '] + t;
      assert forall k :: 2 <= k < |r| ==> r[k] == t[k - 2] && (k - 2) % 2 == k % 2;
      assert forall k :: 2 <= k < |r| && k % 2 == 0 ==> s[1..][(k - 2) / 2] == s[k / 2];
      r
  }

  /** The digits of `s`, each as a one-character string, in order. */
  function DigitSingletons(s: string): (r: seq<string>)
    ensures forall i :: 0 <= i < |r| ==> |r[i]| == 1 && IsDigit(r[i][0])
  {
    if s == [] then []
    else (if IsDigit(s[0]) then [[s[0]]] else []) + DigitSingletons(s[1..])
  }

  /** Joining the characters with spaces before `findall(r'\d+')` splits
      every run of digits into single digits: `"12"` gives `["1", "2"]`. */
  lemma {:induction false} DigitRunsOfSpaceJoin(s: string)
    ensures DigitRuns(SpaceJoin(s)) == DigitSingletons(s)
  {
    if |s| == 1 {
      assert s[1..] == [] && [s[0]] == s && s + [] == s;
      if IsDigit(s[0]) {
        DigitRunsFirst(s, []);
      } else {
        assert s[1..] == [];
      }
    } else if |s| > 1 {
      var tail := SpaceJoin(s[1..]);
      DigitRunsOfSpaceJoin(s[1..]);
      DigitRunsSkip([' '], tail);
      assert SpaceJoin(s) == [s[0]] + ([' '] + tail);
      if IsDigit(s[0]) {
        DigitRunsFirst([s[0]], [' '] + tail);
        assert DigitSingletons(s) == [[s[0]]] + DigitSingletons(s[1..]);
      } else {
        assert (SpaceJoin(s))[1..] == [' '] + tail;
      }
    }
  }
}
