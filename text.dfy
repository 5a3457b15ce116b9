/**
 * The Python 2 `str` operations the admin-port client relies on, over `seq<char>`:
 * `split()`, `split(sep)`, `strip()`, `rstrip()`, `splitlines()`, `sep.join(...)`,
 * `lower()`, `replace('.', '_')` and `int(...)` on a token.
 */
module Text {
  import opened Wrappers

  /** The characters that the argument-less `split()` and `strip()` treat as whitespace. */
  predicate IsSpace(c: char) {
    c == ' ' || '\t' <= c <= '\r'
  }

  /** A token `split()` can produce: non-empty and free of whitespace. */
  predicate IsWord(s: string) {
    |s| > 0 && forall i :: 0 <= i < |s| ==> !IsSpace(s[i])
  }

  predicate IsBlank(s: string) {
    forall i :: 0 <= i < |s| ==> IsSpace(s[i])
  }

  /** The number of whitespace characters `s` starts with. */
  function LeadingSpaces(s: string): (n: nat)
    ensures n <= |s| && (n < |s| ==> !IsSpace(s[n]))
    ensures forall k :: 0 <= k < n ==> IsSpace(s[k])
  {
    if s != [] && IsSpace(s[0]) then 1 + LeadingSpaces(s[1..]) else 0
  }

  /** The length of `s` without the whitespace it ends with. */
  function TrailingStart(s: string): (n: nat)
    ensures n <= |s| && (n > 0 ==> !IsSpace(s[n - 1]))
    ensures forall k :: n <= k < |s| ==> IsSpace(s[k])
  {
    if s != [] && IsSpace(s[|s| - 1]) then TrailingStart(s[..|s| - 1]) else |s|
  }

  /** `s.lstrip()` */
  function LStrip(s: string): string {
    s[LeadingSpaces(s)..]
  }

  /** `s.rstrip()` */
  function RStrip(s: string): string {
    s[..TrailingStart(s)]
  }

  /** `s.strip()`: empty exactly when `s` is all whitespace. */
  function Strip(s: string): (r: string)
    ensures r == [] <==> IsBlank(s)
  {
    var n := LeadingSpaces(s);
    var l := s[n..];
    assert forall k :: 0 <= k < |l| ==> l[k] == s[n + k];
    RStrip(l)
  }

  /** The length of the leading run of non-whitespace characters of `s`. */
  function WordEnd(s: string): (i: nat)
    ensures i <= |s| && (i < |s| ==> IsSpace(s[i]))
    ensures forall k :: 0 <= k < i ==> !IsSpace(s[k])
  {
    if s == [] || IsSpace(s[0]) then 0 else 1 + WordEnd(s[1..])
  }

  /** `s.split()`: the maximal runs of non-whitespace characters, in order. */
  function Split(s: string): (ws: seq<string>)
    ensures forall i :: 0 <= i < |ws| ==> IsWord(ws[i])
  {
    if s == [] then []
    else if IsSpace(s[0]) then Split(s[1..])
    else
      var i := WordEnd(s);
      var w := s[..i];
      assert IsWord(w) by {
        forall k | 0 <= k < i ensures !IsSpace(w[k]) { assert w[k] == s[k]; }
      }
      [w] + Split(s[i..])
  }

  /** `sep.join(parts)`. */
  function Join(sep: string, parts: seq<string>): string {
    if parts == [] then []
    else if |parts| == 1 then parts[0]
    else parts[0] + sep + Join(sep, parts[1..])
  }

  lemma WordEndOfWord(w: string, tail: string)
    requires IsWord(w) && (tail == [] || IsSpace(tail[0]))
    ensures WordEnd(w + tail) == |w|
  {
    var s := w + tail;
    assert forall k :: 0 <= k < |w| ==> s[k] == w[k];
    assert |w| < |s| ==> s[|w|] == tail[0];
  }

  lemma {:induction false} SplitBlank(s: string)
    requires IsBlank(s)
    ensures Split(s) == []
  {
    if s != [] {
      SplitBlank(s[1..]);
    }
  }

  /** Leading whitespace does not change the split. */
  lemma {:induction false} SplitBlankPrefix(lead: string, s: string)
    requires IsBlank(lead)
    ensures Split(lead + s) == Split(s)
  {
    if lead != [] {
      assert (lead + s)[0] == lead[0];
      assert (lead + s)[1..] == lead[1..] + s;
      SplitBlankPrefix(lead[1..], s);
    } else {
      assert lead + s == s;
    }
  }

  /** A word followed by whitespace (or nothing) is the first token of the split. */
  lemma SplitCons(w: string, rest: string)
    requires IsWord(w) && (rest == [] || IsSpace(rest[0]))
    ensures Split(w + rest) == [w] + Split(rest)
  {
    var s := w + rest;
    assert s[0] == w[0];
    WordEndOfWord(w, rest);
    assert s[..|w|] == w && s[|w|..] == rest;
  }

  /**
   * Splitting words joined by single spaces, followed by any whitespace, gives the words
   * back: a command line built by the client is read back as its verb and arguments.
   */
  lemma {:induction false} SplitJoinWords(ws: seq<string>, tail: string)
    requires forall i :: 0 <= i < |ws| ==> IsWord(ws[i])
    requires IsBlank(tail)
    ensures Split(Join(" ", ws) + tail) == ws
  {
    if ws == [] {
      assert Join(" ", ws) + tail == tail;
      SplitBlank(tail);
    } else if |ws| == 1 {
      assert Join(" ", ws) + tail == ws[0] + tail;
      SplitCons(ws[0], tail);
      SplitBlank(tail);
    } else {
      var more := Join(" ", ws[1..]) + tail;
      JoinFirst(ws, tail);
      SplitCons(ws[0], " " + more);
      SplitSpace(more);
      SplitJoinWords(ws[1..], tail);
    }
  }

  lemma JoinFirst(ws: seq<string>, tail: string)
    requires |ws| > 1
    ensures Join(" ", ws) + tail == ws[0] + (" " + (Join(" ", ws[1..]) + tail))
  {
  }

  lemma SplitSpace(s: string)
    ensures Split(" " + s) == Split(s)
  {
    assert (" " + s)[1..] == s;
  }

  /** Stripping a line of words followed by whitespace leaves the words joined by spaces. */
  lemma {:induction false} StripWordsLine(ws: seq<string>, tail: string)
    requires |ws| > 0 && forall i :: 0 <= i < |ws| ==> IsWord(ws[i])
    requires IsBlank(tail)
    ensures Strip(Join(" ", ws) + tail) == Join(" ", ws)
  {
    var j := Join(" ", ws);
    JoinWordsEnds(ws);
    assert (j + tail)[0] == j[0];
    assert LStrip(j + tail) == j + tail;
    TrailingStartBlankTail(j, tail);
  }

  lemma {:induction false} JoinWordsEnds(ws: seq<string>)
    requires |ws| > 0 && forall i :: 0 <= i < |ws| ==> IsWord(ws[i])
    ensures |Join(" ", ws)| > 0
    ensures !IsSpace(Join(" ", ws)[0]) && !IsSpace(Join(" ", ws)[|Join(" ", ws)| - 1])
  {
    if |ws| > 1 {
      JoinWordsEnds(ws[1..]);
      var j := Join(" ", ws[1..]);
      assert Join(" ", ws) == ws[0] + " " + j;
      assert Join(" ", ws)[0] == ws[0][0];
    }
  }

  lemma {:induction false} TrailingStartBlankTail(s: string, tail: string)
    requires s != [] && !IsSpace(s[|s| - 1]) && IsBlank(tail)
    ensures TrailingStart(s + tail) == |s|
    decreases |tail|
  {
    if tail != [] {
      var t := tail[..|tail| - 1];
      assert (s + tail)[..|s + tail| - 1] == s + t;
      TrailingStartBlankTail(s, t);
    } else {
      assert s + tail == s;
    }
  }

  /** A slice is the slices on either side of any point within it, put together. */
  lemma SliceSplit(s: string, i: nat, j: nat, k: nat)
    requires i <= j <= k <= |s|
    ensures s[i..k] == s[i..j] + s[j..k]
  {
  }

  /** A slice of a piece of `data` is the same slice of `data`. */
  lemma SliceWithin(data: string, q: nat, f: string, i: nat, j: nat)
    requires q + |f| <= |data| && data[q..q + |f|] == f && i <= j <= |f|
    ensures data[q + i..q + j] == f[i..j]
  {
    forall k | 0 <= k < j - i ensures data[q + i..q + j][k] == f[i..j][k] {
      assert data[q..q + |f|][i + k] == data[q + i + k];
    }
  }

  /** The index of the first occurrence of `c` in `s`, or `|s|`. */
  function IndexOf(c: char, s: string): (i: nat)
    ensures i <= |s| && (i < |s| ==> s[i] == c)
    ensures forall k :: 0 <= k < i ==> s[k] != c
  {
    if s == [] || s[0] == c then 0 else 1 + IndexOf(c, s[1..])
  }

  /** `s.split(c)` for a one-character separator: empty fields are kept. */
  function SplitOn(c: char, s: string): (parts: seq<string>)
    ensures |parts| >= 1
    ensures forall i :: 0 <= i < |parts| ==> c !in parts[i]
    decreases |s|
  {
    var i := IndexOf(c, s);
    if i == |s| then [s] else [s[..i]] + SplitOn(c, s[i + 1..])
  }

  /** Joining the fields of `s.split(c)` with `c` gives `s` back. */
  lemma {:induction false} JoinSplitOn(c: char, s: string)
    ensures Join([c], SplitOn(c, s)) == s
    decreases |s|
  {
    var i := IndexOf(c, s);
    if i < |s| {
      var rest := SplitOn(c, s[i + 1..]);
      var parts := [s[..i]] + rest;
      assert SplitOn(c, s) == parts && parts[1..] == rest;
      assert Join([c], parts) == s[..i] + [c] + Join([c], rest);
      JoinSplitOn(c, s[i + 1..]);
      assert s == s[..i] + [c] + s[i + 1..];
    }
  }

  /** Splitting fields joined with `c` gives the fields back when none of them holds `c`. */
  lemma {:induction false} SplitOnJoin(c: char, parts: seq<string>)
    requires |parts| >= 1
    requires forall i :: 0 <= i < |parts| ==> c !in parts[i]
    ensures SplitOn(c, Join([c], parts)) == parts
  {
    if |parts| > 1 {
      var rest := Join([c], parts[1..]);
      assert Join([c], parts) == parts[0] + [c] + rest;
      SplitOnField(c, parts[0], rest);
      SplitOnJoin(c, parts[1..]);
    }
  }

  /** A field without `c`, then `c`: the split takes the field and goes on after `c`. */
  lemma SplitOnField(c: char, p: string, rest: string)
    requires c !in p
    ensures SplitOn(c, p + [c] + rest) == [p] + SplitOn(c, rest)
  {
    var s := p + [c] + rest;
    assert forall k :: 0 <= k < |p| ==> s[k] == p[k];
    assert s[|p|] == c;
    assert IndexOf(c, s) == |p|;
    assert s[..|p|] == p && s[|p| + 1..] == rest;
  }

  predicate IsLineBreak(c: char) { c == '\n' || c == '\r' }

  /** The index of the first `\n` or `\r` in `s`, or `|s|`. */
  function BreakAt(s: string): (i: nat)
    ensures i <= |s| && (i < |s| ==> IsLineBreak(s[i]))
    ensures forall k :: 0 <= k < i ==> !IsLineBreak(s[k])
  {
    if s == [] || IsLineBreak(s[0]) then 0 else 1 + BreakAt(s[1..])
  }

  /** `s.splitlines()` for a byte string: lines end at `\n`, `\r` or `\r\n`; the breaks are dropped. */
  function SplitLines(s: string): (lines: seq<string>)
    ensures forall i :: 0 <= i < |lines| ==> forall k :: 0 <= k < |lines[i]| ==> !IsLineBreak(lines[i][k])
    decreases |s|
  {
    if s == [] then []
    else
      var i := BreakAt(s);
      if i == |s| then [s]
      else
        var skip := if s[i] == '\r' && i + 1 < |s| && s[i + 1] == '\n' then 2 else 1;
        [s[..i]] + SplitLines(s[i + skip..])
  }

  /** Each line followed by `\n`: the text a reply body is made of. */
  function Terminated(lines: seq<string>): string {
    if lines == [] then [] else lines[0] + "\n" + Terminated(lines[1..])
  }

  /** `splitlines()` recovers the lines of a `\n`-terminated text. */
  lemma {:induction false} SplitLinesTerminated(lines: seq<string>)
    requires forall i :: 0 <= i < |lines| ==> forall k :: 0 <= k < |lines[i]| ==> !IsLineBreak(lines[i][k])
    ensures SplitLines(Terminated(lines)) == lines
  {
    if lines != [] {
      var l := lines[0];
      var rest := Terminated(lines[1..]);
      var s := Terminated(lines);
      assert s == l + "\n" + rest;
      var i := BreakAt(s);
      assert forall k :: 0 <= k < |l| ==> s[k] == l[k];
      assert s[|l|] == '\n';
      assert i == |l|;
      assert s[..i] == l && s[i + 1..] == rest;
      SplitLinesTerminated(lines[1..]);
    }
  }

  /** ASCII lower-casing, as `str.lower()` does under the C locale. */
  function LowerChar(c: char): char {
    if 'A' <= c <= 'Z' then (c as int + 32) as char else c
  }

  /** `s.lower()`: same length, no upper-case letter left, every other character kept. */
  function Lower(s: string): (r: string)
    ensures |r| == |s|
    ensures forall i :: 0 <= i < |r| ==> !('A' <= r[i] <= 'Z')
    ensures forall i :: 0 <= i < |s| && !('A' <= s[i] <= 'Z') ==> r[i] == s[i]
  {
    seq(|s|, i requires 0 <= i < |s| => LowerChar(s[i]))
  }

  /** `s.replace(a, b)` for single characters. */
  function Replace(s: string, a: char, b: char): (r: string)
    ensures |r| == |s|
    ensures a != b ==> a !in r
    ensures a !in s ==> r == s
  {
    seq(|s|, i requires 0 <= i < |s| => if s[i] == a then b else s[i])
  }

  predicate IsDigit(c: char) { '0' <= c <= '9' }

  predicate AllDigits(s: string) { forall i :: 0 <= i < |s| ==> IsDigit(s[i]) }

  /** The value of a string of decimal digits. */
  function Digits(s: string): nat
    requires AllDigits(s)
  {
    if s == [] then 0 else 10 * Digits(s[..|s| - 1]) + (s[|s| - 1] as int - '0' as int)
  }

  /** `int(token)`: an optional sign followed by at least one decimal digit. */
  function ParseInt(s: string): Option<int> {
    if |s| > 1 && (s[0] == '-' || s[0] == '+') && AllDigits(s[1..]) then
      Some((if s[0] == '-' then -1 else 1) * Digits(s[1..]))
    else if |s| > 0 && AllDigits(s) then Some(Digits(s))
    else None
  }

  function DigitChar(d: nat): char
    requires d < 10
  {
    ('0' as int + d) as char
  }

  /** The decimal numeral of `n`, without leading zeros. */
  function NatToString(n: nat): (s: string)
    ensures |s| > 0 && AllDigits(s)
  {
    if n < 10 then [DigitChar(n)] else NatToString(n / 10) + [DigitChar(n % 10)]
  }

  /** `str(i)` / `'%d' % i` for an integer. */
  function IntToString(i: int): string {
    if i < 0 then "-" + NatToString(-i) else NatToString(i)
  }

  lemma {:induction false} DigitsOfNatToString(n: nat)
    ensures Digits(NatToString(n)) == n
  {
    if n >= 10 {
      var s := NatToString(n);
      assert s[..|s| - 1] == NatToString(n / 10);
      DigitsOfNatToString(n / 10);
    }
  }

  /** `int(str(i)) == i`, and the numeral is a single token. */
  lemma ParseIntToString(i: int)
    ensures ParseInt(IntToString(i)) == Some(i)
    ensures IsWord(IntToString(i))
  {
    if i < 0 {
      var s := IntToString(i);
      assert s[1..] == NatToString(-i);
      DigitsOfNatToString(-i);
    } else {
      DigitsOfNatToString(i);
    }
  }
}
