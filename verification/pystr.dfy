/** The parts of Python's `str` and `os.path` that the modelled code relies on:
    `strip`, `lstrip(c)`, `split(sep)`, `splitlines`, `startswith`,
    `endswith`, the `in` operator on strings, `int(s)`, `str(i)` and
    two-argument `os.path.join` on POSIX paths. */
module PyStr {
  import opened Wrappers

  /** `c.isspace()`: the whitespace characters of Python 3. */
  predicate IsSpace(c: char) {
    || ('\t' <= c <= '\r')
    || ('\U{1c}' <= c <= ' ')
    || c == '\U{85}' || c == '\U{a0}' || c == '\U{1680}'
    || ('\U{2000}' <= c <= '\U{200a}')
    || c == '\U{2028}' || c == '\U{2029}' || c == '\U{202f}' || c == '\U{205f}' || c == '\U{3000}'
  }

  /** The line boundaries of `str.splitlines` (`"\r\n"` counts as one). */
  predicate IsLineBreak(c: char) {
    || ('\n' <= c <= '\r')
    || ('\U{1c}' <= c <= '\U{1e}')
    || c == '\U{85}' || c == '\U{2028}' || c == '\U{2029}'
  }

  predicate AllSpace(s: string) {
    forall i :: 0 <= i < |s| ==> IsSpace(s[i])
  }

  // ---------------------------------------------------------------- strip

  /** `s.strip()`: whitespace is dropped from either end, one character at
      a time, until neither end is whitespace. */
  function Strip(s: string): (r: string)
    ensures |r| <= |s|
    decreases |s|
  {
    if s != [] && IsSpace(s[0]) then Strip(s[1..])
    else if s != [] && IsSpace(s[|s| - 1]) then Strip(s[..|s| - 1])
    else s
  }

  /** The stripped text is empty exactly when `s` is all whitespace, and
      otherwise starts and ends with a non-whitespace character. */
  lemma {:induction false} StripEnds(s: string)
    ensures Strip(s) == [] <==> AllSpace(s)
    ensures Strip(s) != [] ==> !IsSpace(Strip(s)[0]) && !IsSpace(Strip(s)[|Strip(s)| - 1])
    decreases |s|
  {
    if s != [] && IsSpace(s[0]) {
      StripEnds(s[1..]);
      assert AllSpace(s) <==> AllSpace(s[1..]) by {
        assert forall i :: 0 <= i < |s| - 1 ==> s[1..][i] == s[i + 1];
      }
    } else if s != [] && IsSpace(s[|s| - 1]) {
      var t := s[..|s| - 1];
      StripEnds(t);
      assert t[0] == s[0];
    }
  }

  /** A string with no whitespace at either end is its own strip. */
  lemma StripUnchanged(s: string)
    requires s == [] || (!IsSpace(s[0]) && !IsSpace(s[|s| - 1]))
    ensures Strip(s) == s
  {
  }

  lemma StripIdempotent(s: string)
    ensures Strip(Strip(s)) == Strip(s)
  {
    StripEnds(s);
    StripUnchanged(Strip(s));
  }

  /** Whitespace after a text with no whitespace at either end is exactly
      what `strip` removes. */
  lemma {:induction false} StripTrailing(t: string, post: string)
    requires AllSpace(post)
    requires t == [] || (!IsSpace(t[0]) && !IsSpace(t[|t| - 1]))
    ensures Strip(t + post) == t
    decreases |post|
  {
    if t == [] {
      assert t + post == post;
      StripEnds(post);
    } else if post != [] {
      var s := t + post;
      assert s[0] == t[0] && s[|s| - 1] == post[|post| - 1];
      assert s[..|s| - 1] == t + post[..|post| - 1];
      StripTrailing(t, post[..|post| - 1]);
    } else {
      assert t + post == t;
    }
  }

  /** Whitespace around a text with no whitespace at either end is exactly
      what `strip` removes. */
  lemma {:induction false} StripPadded(pre: string, t: string, post: string)
    requires AllSpace(pre) && AllSpace(post)
    requires t == [] || (!IsSpace(t[0]) && !IsSpace(t[|t| - 1]))
    ensures Strip(pre + t + post) == t
    decreases |pre|
  {
    if pre == [] {
      assert pre + t + post == t + post;
      StripTrailing(t, post);
    } else {
      var s := pre + t + post;
      assert s[0] == pre[0];
      assert s[1..] == pre[1..] + t + post;
      StripPadded(pre[1..], t, post);
    }
  }

  /** `s.lstrip(c)`. */
  function LStripChar(s: string, c: char): (r: string)
    ensures |r| <= |s| && r == s[|s| - |r|..]
    ensures forall i :: 0 <= i < |s| - |r| ==> s[i] == c
    ensures r == [] || r[0] != c
  {
    if s != [] && s[0] == c then LStripChar(s[1..], c) else s
  }

  // ----------------------------------------------------- prefix, suffix, in

  predicate StartsWith(s: string, prefix: string) {
    |prefix| <= |s| && s[..|prefix|] == prefix
  }

  predicate EndsWith(s: string, suffix: string) {
    |suffix| <= |s| && s[|s| - |suffix|..] == suffix
  }

  /** `sub in s`. */
  predicate Contains(s: string, sub: string)
    decreases |s|
  {
    StartsWith(s, sub) || (s != [] && Contains(s[1..], sub))
  }

  /** `sub` occurs in `s` at index `i`. */
  predicate OccursAt(s: string, sub: string, i: int) {
    0 <= i <= |s| - |sub| && s[i..i + |sub|] == sub
  }

  /** `sub in s` holds exactly when `sub` occurs at some index of `s`. */
  lemma {:induction false} ContainsAt(s: string, sub: string)
    ensures Contains(s, sub) <==> exists i :: OccursAt(s, sub, i)
    decreases |s|
  {
    if StartsWith(s, sub) {
      assert OccursAt(s, sub, 0);
    } else if s != [] {
      ContainsAt(s[1..], sub);
      if Contains(s[1..], sub) {
        var i :| OccursAt(s[1..], sub, i);
        assert OccursAt(s, sub, i + 1);
      }
      if exists i :: OccursAt(s, sub, i) {
        var i :| OccursAt(s, sub, i);
        assert i != 0;
        assert OccursAt(s[1..], sub, i - 1);
      }
    }
  }

  // ---------------------------------------------------------------- split

  /** `s.split(sep)` for a non-empty separator: occurrences are cut from the
      left and never overlap. */
  function Split(s: string, sep: string): (r: seq<string>)
    requires sep != []
    ensures |r| >= 1
    decreases |s|
  {
    if |s| < |sep| then [s]
    else if s[..|sep|] == sep then [""] + Split(s[|sep|..], sep)
    else
      var rest := Split(s[1..], sep);
      [[s[0]] + rest[0]] + rest[1..]
  }

  /** `sep.join(parts)`. */
  function Join(parts: seq<string>, sep: string): string
  {
    if parts == [] then ""
    else if |parts| == 1 then parts[0]
    else parts[0] + sep + Join(parts[1..], sep)
  }

  lemma JoinConsHead(c: char, parts: seq<string>, sep: string)
    requires parts != []
    ensures Join([[c] + parts[0]] + parts[1..], sep) == [c] + Join(parts, sep)
  {
    var q := [[c] + parts[0]] + parts[1..];
    if |parts| > 1 {
      assert q[1..] == parts[1..];
    }
  }

  /** Splitting and joining with the same separator gives the string back. */
  lemma {:induction false} JoinSplit(s: string, sep: string)
    requires sep != []
    ensures Join(Split(s, sep), sep) == s
    decreases |s|
  {
    if |s| < |sep| {
    } else if s[..|sep|] == sep {
      var rest := Split(s[|sep|..], sep);
      JoinSplit(s[|sep|..], sep);
      assert ([""] + rest)[1..] == rest;
      assert s == s[..|sep|] + s[|sep|..];
    } else {
      var rest := Split(s[1..], sep);
      JoinSplit(s[1..], sep);
      JoinConsHead(s[0], rest, sep);
      assert s == [s[0]] + s[1..];
    }
  }

  /** A string without the separator character splits into itself. */
  lemma {:induction false} SplitCharAbsent(a: string, c: char)
    requires c !in a
    ensures Split(a, [c]) == [a]
    decreases |a|
  {
    if a != [] {
      SplitCharAbsent(a[1..], c);
      assert a == [a[0]] + a[1..];
    }
  }

  /** Splitting `a + c + rest` on `c`, where `a` has no `c`, cuts after `a`. */
  lemma {:induction false} SplitCharFirst(a: string, c: char, rest: string)
    requires c !in a
    ensures Split(a + [c] + rest, [c]) == [a] + Split(rest, [c])
    decreases |a|
  {
    var s := a + [c] + rest;
    if a == [] {
      assert s[..1] == [c];
      assert s[1..] == rest;
    } else {
      assert s[..1] != [c] by { assert s[0] == a[0] && a[0] in a; }
      assert s[1..] == a[1..] + [c] + rest;
      SplitCharFirst(a[1..], c, rest);
      assert a == [a[0]] + a[1..];
    }
  }

  // ----------------------------------------------------------- splitlines

  /** The index of the first line boundary of `s`, or `|s|` if there is none. */
  function FirstBreak(s: string): (i: nat)
    ensures i <= |s|
    ensures forall k :: 0 <= k < i ==> !IsLineBreak(s[k])
    ensures i < |s| ==> IsLineBreak(s[i])
  {
    if s == [] || IsLineBreak(s[0]) then 0 else 1 + FirstBreak(s[1..])
  }

  /** Where the text after the boundary at `i` starts (`"\r\n"` is one boundary). */
  function AfterBreak(s: string, i: nat): (j: nat)
    requires i < |s|
    ensures i < j <= |s|
  {
    if s[i] == '\r' && i + 1 < |s| && s[i + 1] == '\n' then i + 2 else i + 1
  }

  predicate NoLineBreak(line: string) {
    forall j :: 0 <= j < |line| ==> !IsLineBreak(line[j])
  }

  /** `s.splitlines()`: no line holds a boundary, and only the empty string
      has no lines. */
  function SplitLines(s: string): (r: seq<string>)
    ensures r == [] <==> s == []
    ensures forall k :: 0 <= k < |r| ==> NoLineBreak(r[k])
    decreases |s|
  {
    if s == [] then []
    else
      var i := FirstBreak(s);
      if i == |s| then [s]
      else [s[..i]] + SplitLines(s[AfterBreak(s, i)..])
  }

  /** The number of line boundaries in `s`, counting `"\r\n"` once. */
  function BreakCount(s: string): nat
  {
    if s == [] then 0
    else
      var one := if IsLineBreak(s[0]) && !(s[0] == '\r' && |s| > 1 && s[1] == '\n') then 1 else 0;
      one + BreakCount(s[1..])
  }

  lemma {:induction false} BreakCountSkip(s: string, i: nat)
    requires i <= |s|
    requires forall k :: 0 <= k < i ==> !IsLineBreak(s[k])
    ensures BreakCount(s) == BreakCount(s[i..])
    decreases i
  {
    if i > 0 {
      BreakCountSkip(s[1..], i - 1);
      assert s[1..][i - 1..] == s[i..];
    }
  }

  /** A text that does not end in a boundary has one more line than it has
      boundaries. */
  lemma {:induction false} LineCount(s: string)
    requires s != [] && !IsLineBreak(s[|s| - 1])
    ensures |SplitLines(s)| == BreakCount(s) + 1
    decreases |s|
  {
    var i := FirstBreak(s);
    BreakCountSkip(s, i);
    if i < |s| {
      var next := AfterBreak(s, i);
      var t := s[i..];
      if next == i + 2 {
        assert t[1..][1..] == s[next..];
      } else {
        assert t[1..] == s[next..];
      }
      LineCount(s[next..]);
    } else {
      assert s[i..] == [];
    }
  }

  lemma NoLineBreakConcat(a: string, b: string)
    ensures NoLineBreak(a + b) <==> NoLineBreak(a) && NoLineBreak(b)
  {
    assert forall j :: 0 <= j < |a| ==> (a + b)[j] == a[j];
    assert forall j :: 0 <= j < |b| ==> (a + b)[|a| + j] == b[j];
  }

  /** Stripping cannot introduce a line boundary. */
  lemma {:induction false} StripNoLineBreak(s: string)
    requires NoLineBreak(s)
    ensures NoLineBreak(Strip(s))
    decreases |s|
  {
    if s != [] && IsSpace(s[0]) {
      assert forall j :: 0 <= j < |s| - 1 ==> s[1..][j] == s[j + 1];
      StripNoLineBreak(s[1..]);
    } else if s != [] && IsSpace(s[|s| - 1]) {
      assert forall j :: 0 <= j < |s| - 1 ==> s[..|s| - 1][j] == s[j];
      StripNoLineBreak(s[..|s| - 1]);
    }
  }

  /** Lines written one after another, each followed by `"\n"`, as a
      triple-quoted f-string lays them out. */
  function ConcatLines(lines: seq<string>): string
  {
    if lines == [] then "" else lines[0] + "\n" + ConcatLines(lines[1..])
  }

  /** `splitlines` gives back the lines of a text laid out line by line. */
  lemma {:induction false} SplitLinesConcat(lines: seq<string>)
    requires forall k :: 0 <= k < |lines| ==> NoLineBreak(lines[k])
    ensures SplitLines(ConcatLines(lines)) == lines
  {
    if lines != [] {
      var a, rest := lines[0], ConcatLines(lines[1..]);
      var s := a + "\n" + rest;
      assert s == ConcatLines(lines);
      assert s[|a|] == '\n';
      assert FirstBreak(s) == |a| by {
        assert forall k :: 0 <= k < |a| ==> s[k] == a[k];
      }
      assert AfterBreak(s, |a|) == |a| + 1;
      assert s[..|a|] == a;
      assert s[|a| + 1..] == rest;
      SplitLinesConcat(lines[1..]);
    }
  }

  // ------------------------------------------------------ int() and str()

  predicate IsDigit(c: char) { '0' <= c <= '9' }

  function DigitValue(c: char): nat
    requires IsDigit(c)
  {
    (c as int) - ('0' as int)
  }

  function DigitChar(d: nat): (c: char)
    requires d < 10
    ensures IsDigit(c) && DigitValue(c) == d
  {
    ((('0' as int) + d) as char)
  }

  predicate DigitsOrUnderscores(s: string) {
    forall i :: 0 <= i < |s| ==> IsDigit(s[i]) || s[i] == '_'
  }

  /** The body `int()` accepts after the sign: ASCII digits, with single
      underscores allowed between digits. */
  predicate IsDigitGroups(s: string) {
    && |s| > 0
    && IsDigit(s[0]) && IsDigit(s[|s| - 1])
    && DigitsOrUnderscores(s)
    && forall i :: 0 <= i < |s| - 1 ==> !(s[i] == '_' && s[i + 1] == '_')
  }

  function DigitsValue(s: string): nat
    requires DigitsOrUnderscores(s)
  {
    if s == [] then 0
    else
      var init := DigitsValue(s[..|s| - 1]);
      if s[|s| - 1] == '_' then init else init * 10 + DigitValue(s[|s| - 1])
  }

  /** The whitespace `int()` skips around a number: the ASCII characters
      `\t` to `\r` and the space, and every non-ASCII character of
      `IsSpace`. The separators U+001C to U+001F are `isspace()` but are not
      skipped. */
  predicate IntSpace(c: char) {
    IsSpace(c) && !('\U{1c}' <= c <= '\U{1f}')
  }

  /** `int(s)` for digits in ASCII; None where Python raises ValueError.
      `IntSpace` whitespace at either end is skipped, one character at a
      time. */
  function ParseInt(s: string): Option<int>
    decreases |s|
  {
    if s != [] && IntSpace(s[0]) then ParseInt(s[1..])
    else if s != [] && IntSpace(s[|s| - 1]) then ParseInt(s[..|s| - 1])
    else ParseSigned(s)
  }

  /** `int` of a text without surrounding whitespace: an optional sign and
      the digit groups. */
  function ParseSigned(t: string): Option<int>
  {
    if |t| > 0 && (t[0] == '+' || t[0] == '-') then
      if IsDigitGroups(t[1..]) then
        Some(if t[0] == '-' then -(DigitsValue(t[1..]) as int) else DigitsValue(t[1..]))
      else None
    else if IsDigitGroups(t) then Some(DigitsValue(t))
    else None
  }

  /** Any `IntSpace` padding around a number is ignored: the padded text
      parses as the number alone. */
  lemma {:induction false} ParseIntPadded(pre: string, t: string, post: string)
    requires forall i :: 0 <= i < |pre| ==> IntSpace(pre[i])
    requires forall i :: 0 <= i < |post| ==> IntSpace(post[i])
    requires t == [] || (!IntSpace(t[0]) && !IntSpace(t[|t| - 1]))
    ensures ParseInt(pre + t + post) == ParseSigned(t)
    decreases |pre| + |post|
  {
    var s := pre + t + post;
    if pre != [] {
      assert s[0] == pre[0];
      assert s[1..] == pre[1..] + t + post;
      ParseIntPadded(pre[1..], t, post);
    } else if post != [] {
      var n := |post| - 1;
      if t == [] {
        assert s == post && s[1..] == [] + [] + post[1..];
        ParseIntPadded([], [], post[1..]);
      } else {
        assert s[0] == t[0] && s[|s| - 1] == post[n];
        assert s[..|s| - 1] == [] + t + post[..n];
        ParseIntPadded([], t, post[..n]);
      }
    } else {
      assert s == t;
    }
  }

  /** The information separators U+001C to U+001F are whitespace to
      `isspace()`, yet `int()` refuses a number next to them. */
  lemma ParseIntSeparators()
    ensures IsSpace('\U{1c}') && IsSpace('\U{1f}')
    ensures ParseInt("\U{1c}1").None? && ParseInt("1\U{1f}").None?
    ensures ParseInt(" 1\n") == Some(1)
  {
    assert ParseSigned("1") == Some(1) by {
      assert IsDigitGroups("1");
      assert DigitsValue("1") == DigitsValue("") * 10 + DigitValue('1');
    }
    ParseIntPadded(" ", "1", "\n");
    assert " " + "1" + "\n" == " 1\n";
  }

  /** `str(n)` for a natural number. */
  function FormatNat(n: nat): (r: string)
    ensures |r| > 0 && forall i :: 0 <= i < |r| ==> IsDigit(r[i])
  {
    if n < 10 then [DigitChar(n)] else FormatNat(n / 10) + [DigitChar(n % 10)]
  }

  /** `str(i)` for an integer. */
  function FormatInt(i: int): (r: string)
    ensures r != [] && !IsSpace(r[0]) && IsDigit(r[|r| - 1])
    ensures r[0] == '-' || IsDigit(r[0])
    ensures '.' !in r
  {
    if i < 0 then "-" + FormatNat(-i) else FormatNat(i)
  }

  lemma {:induction false} DigitsValueFormat(n: nat)
    ensures DigitsValue(FormatNat(n)) == n
  {
    if n >= 10 {
      var r := FormatNat(n);
      assert r[..|r| - 1] == FormatNat(n / 10);
      DigitsValueFormat(n / 10);
    }
  }

  lemma DigitStringIsGroups(d: string)
    requires |d| > 0 && forall k :: 0 <= k < |d| ==> IsDigit(d[k])
    ensures IsDigitGroups(d)
  {
  }

  /** `int(str(i)) == i`. */
  lemma ParseFormatInt(i: int)
    ensures ParseInt(FormatInt(i)) == Some(i)
  {
    if i < 0 {
      ParseFormatNegative(-i);
    } else {
      ParseFormatNat(i);
    }
  }

  lemma ParseFormatNat(n: nat)
    ensures ParseInt(FormatNat(n)) == Some(n)
  {
    var d := FormatNat(n);
    assert d[0] != '+' && d[0] != '-' by { assert IsDigit(d[0]); }
    DigitStringIsGroups(d);
    DigitsValueFormat(n);
  }

  lemma ParseFormatNegative(n: nat)
    requires n > 0
    ensures ParseInt("-" + FormatNat(n)) == Some(-(n as int))
  {
    var d := FormatNat(n);
    var r := "-" + d;
    assert r[0] == '-' && r[|r| - 1] == d[|d| - 1];
    assert !IsSpace(r[|r| - 1]) by { assert IsDigit(d[|d| - 1]); }
    assert r[1..] == d;
    DigitStringIsGroups(d);
    DigitsValueFormat(n);
    assert ParseInt(r) == Some(-(DigitsValue(d) as int));
  }

  // ------------------------------------------------------------ os.path

  /** `os.path.join(root, name)` with POSIX separators: an absolute name
      replaces the root; otherwise the name follows the root, with a `/`
      just before it unless the root is empty. */
  function JoinPath(root: string, name: string): (r: string)
    ensures EndsWith(r, name)
    ensures StartsWith(name, "/") ==> r == name
    ensures !StartsWith(name, "/") ==> StartsWith(r, root) && |root| + |name| <= |r| <= |root| + |name| + 1
    ensures !StartsWith(name, "/") && root != [] ==> r[|r| - |name| - 1] == '/'
  {
    if StartsWith(name, "/") then name
    else if root == [] || EndsWith(root, "/") then root + name
    else root + "/" + name
  }
}
