/**
  The pieces of Python's `str` API that the add-on relies on, over `seq<char>`:
  `isspace`, `strip`/`lstrip`/`rstrip`, `split()` (on runs of whitespace),
  `split(sep)` with a one-character separator, `sep.join(xs)` and `str(n)`.
 */
module Text {

  /** The characters for which Python's `str.isspace` holds: what `split()` and `strip()` treat as whitespace. */
  const Whitespace: set<char> := {
    ' ', '\t', '\n', '\U{b}', '\U{c}', '\r', '\U{1c}', '\U{1d}', '\U{1e}', '\U{1f}',
    '\U{85}', '\U{a0}', '\U{1680}',
    '\U{2000}', '\U{2001}', '\U{2002}', '\U{2003}', '\U{2004}', '\U{2005}',
    '\U{2006}', '\U{2007}', '\U{2008}', '\U{2009}', '\U{200a}',
    '\U{2028}', '\U{2029}', '\U{202f}', '\U{205f}', '\U{3000}'
  }

  predicate IsSpace(c: char) {
    c in Whitespace
  }

  /** No printable ASCII character other than the blank is whitespace. */
  lemma PrintableVisible(c: char)
    requires '!' <= c <= '~'
    ensures !IsSpace(c)
  {
  }

  predicate NoSpace(s: string) {
    forall i :: 0 <= i < |s| ==> !IsSpace(s[i])
  }

  /** A word in the sense of `str.split()`: non-empty and free of whitespace. */
  predicate IsWord(s: string) {
    |s| > 0 && NoSpace(s)
  }

  /** `s.lstrip()`: `s` without its leading whitespace. */
  function LStrip(s: string): string {
    if |s| > 0 && IsSpace(s[0]) then LStrip(s[1..]) else s
  }

  /** `lstrip` removes exactly the leading run of whitespace: what is left is a suffix of `s` that does not start with whitespace. */
  lemma {:induction false} LStripSpec(s: string)
    ensures |LStrip(s)| <= |s| && LStrip(s) == s[|s| - |LStrip(s)|..]
    ensures forall i :: 0 <= i < |s| - |LStrip(s)| ==> IsSpace(s[i])
    ensures LStrip(s) == [] || !IsSpace(LStrip(s)[0])
    decreases |s|
  {
    if |s| > 0 && IsSpace(s[0]) {
      LStripSpec(s[1..]);
    }
  }

  /** `s.rstrip()`: `s` without its trailing whitespace. */
  function RStrip(s: string): string {
    if |s| > 0 && IsSpace(s[|s| - 1]) then RStrip(s[..|s| - 1]) else s
  }

  /** `rstrip` removes exactly the trailing run of whitespace: what is left is a prefix of `s` that does not end with whitespace. */
  lemma {:induction false} RStripSpec(s: string)
    ensures |RStrip(s)| <= |s| && RStrip(s) == s[..|RStrip(s)|]
    ensures forall i :: |RStrip(s)| <= i < |s| ==> IsSpace(s[i])
    ensures RStrip(s) == [] || !IsSpace(RStrip(s)[|RStrip(s)| - 1])
    decreases |s|
  {
    if |s| > 0 && IsSpace(s[|s| - 1]) {
      RStripSpec(s[..|s| - 1]);
    }
  }

  /** `s.strip()`: both ends trimmed of whitespace. */
  function Strip(s: string): string {
    LStrip(RStrip(s))
  }

  /** `strip` leaves text that neither starts nor ends with whitespace. */
  lemma StripEdges(s: string)
    ensures Strip(s) == [] || (!IsSpace(Strip(s)[0]) && !IsSpace(Strip(s)[|Strip(s)| - 1]))
  {
    var r := RStrip(s);
    RStripSpec(s);
    LStripSpec(r);
  }

  /** Stripping changes nothing when neither end is whitespace. */
  lemma StripUnchanged(s: string)
    requires |s| > 0 && !IsSpace(s[0]) && !IsSpace(s[|s| - 1])
    ensures Strip(s) == s
  {
  }

  /** Stripping a text that holds no whitespace at all changes nothing. */
  lemma RStripWord(s: string)
    requires NoSpace(s)
    ensures RStrip(s) == s
  {
  }

  /** Number of leading characters of `s` that are not whitespace. */
  function WordLength(s: string): (n: nat)
    ensures n <= |s| && NoSpace(s[..n])
    ensures n == |s| || IsSpace(s[n])
  {
    if |s| == 0 || IsSpace(s[0]) then 0 else 1 + WordLength(s[1..])
  }

  /** `s.split()`: the maximal runs of non-whitespace characters of `s`, in order. */
  function SplitWhitespace(s: string): (r: seq<string>)
    ensures forall k :: 0 <= k < |r| ==> IsWord(r[k])
    decreases |s|
  {
    var t := LStrip(s);
    LStripSpec(s);
    if t == [] then []
    else
      var n := WordLength(t);
      assert n > 0;
      var rest := SplitWhitespace(t[n..]);
      [t[..n]] + rest
  }

  /** `n` copies of `c`: the indentation `''.join('\t' for i in range(0, n))` and zero padding. */
  function Repeat(c: char, n: nat): (r: string)
    ensures |r| == n && forall i :: 0 <= i < n ==> r[i] == c
  {
    if n == 0 then "" else Repeat(c, n - 1) + [c]
  }

  /** `sep.join(xs)`. */
  function Join(xs: seq<string>, sep: string): string {
    if |xs| == 0 then ""
    else if |xs| == 1 then xs[0]
    else xs[0] + sep + Join(xs[1..], sep)
  }

  /** Joining one more item appends the separator and the item. */
  lemma {:induction false} JoinSnoc(xs: seq<string>, x: string, sep: string)
    requires |xs| > 0
    ensures Join(xs + [x], sep) == Join(xs, sep) + sep + x
    decreases |xs|
  {
    if |xs| > 1 {
      assert (xs + [x])[1..] == xs[1..] + [x];
      JoinSnoc(xs[1..], x, sep);
    } else {
      assert xs + [x] == [xs[0], x];
      assert [xs[0], x][1..] == [x];
    }
  }

  /** A character in neither the items nor the separator is not in their join. */
  lemma {:induction false} JoinExcludes(xs: seq<string>, sep: string, c: char)
    requires c !in sep && forall k :: 0 <= k < |xs| ==> c !in xs[k]
    ensures c !in Join(xs, sep)
    decreases |xs|
  {
    if |xs| > 1 {
      JoinExcludes(xs[1..], sep, c);
      assert Join(xs, sep) == xs[0] + sep + Join(xs[1..], sep);
    }
  }

  /** Concatenation of all the strings of `xs` (`''.join(xs)`). */
  function Concat(xs: seq<string>): string {
    if xs == [] then "" else xs[0] + Concat(xs[1..])
  }

  /** The characters of `s` that are not whitespace, in order. */
  function Visible(s: string): string {
    if s == [] then ""
    else if IsSpace(s[0]) then Visible(s[1..])
    else [s[0]] + Visible(s[1..])
  }

  lemma {:induction false} VisibleAppend(a: string, b: string)
    ensures Visible(a + b) == Visible(a) + Visible(b)
    decreases |a|
  {
    if a != [] {
      assert (a + b)[0] == a[0];
      assert (a + b)[1..] == a[1..] + b;
      VisibleAppend(a[1..], b);
    } else {
      assert a + b == b;
    }
  }

  lemma {:induction false} VisibleOfSpaces(s: string)
    requires forall i :: 0 <= i < |s| ==> IsSpace(s[i])
    ensures Visible(s) == ""
    decreases |s|
  {
    if s != [] {
      VisibleOfSpaces(s[1..]);
    }
  }

  /** A line break on its own is invisible. */
  lemma NewlineInvisible()
    ensures Visible("\n") == ""
  {
    assert IsSpace('\n');
  }

  lemma {:induction false} VisibleOfWord(s: string)
    requires NoSpace(s)
    ensures Visible(s) == s
    decreases |s|
  {
    if s != [] {
      VisibleOfWord(s[1..]);
    }
  }

  /** Cutting a sequence in two and gluing the halves gives it back. */
  lemma TakeDrop<T>(s: seq<T>, n: nat)
    requires n <= |s|
    ensures s[..n] + s[n..] == s
  {
  }

  /** `split()` loses only whitespace: its words, put back together, are every visible character of `s`. */
  lemma {:induction false} SplitWhitespaceKeepsVisible(s: string)
    ensures Concat(SplitWhitespace(s)) == Visible(s)
    decreases |s|
  {
    var t := LStrip(s);
    LStripSpec(s);
    var blanks := s[..|s| - |t|];
    TakeDrop(s, |s| - |t|);
    VisibleOfSpaces(blanks);
    VisibleAppend(blanks, t);
    assert Visible(s) == Visible(t);
    if t != [] {
      var n := WordLength(t);
      var w, rest := t[..n], t[n..];
      TakeDrop(t, n);
      VisibleAppend(w, rest);
      VisibleOfWord(w);
      SplitWhitespaceKeepsVisible(rest);
      var words := SplitWhitespace(s);
      assert words == [w] + SplitWhitespace(rest);
      assert words[0] == w && words[1..] == SplitWhitespace(rest);
      assert Concat(words) == w + Concat(SplitWhitespace(rest));
    }
  }

  /** Every word followed by the separator `c`: `''.join(w + c for w in ws)`. */
  function Terminated(ws: seq<string>, c: char): string {
    if ws == [] then "" else ws[0] + [c] + Terminated(ws[1..], c)
  }

  lemma {:induction false} JoinTerminated(ws: seq<string>, c: char)
    requires |ws| > 0
    ensures Join(ws, [c]) + [c] == Terminated(ws, c)
    decreases |ws|
  {
    if |ws| > 1 {
      JoinTerminated(ws[1..], c);
    }
  }

  lemma SplitSkipsSpace(c: char, rest: string)
    requires IsSpace(c)
    ensures SplitWhitespace([c] + rest) == SplitWhitespace(rest)
  {
    assert ([c] + rest)[1..] == rest;
  }

  lemma WordLengthOfWord(w: string, rest: string)
    requires IsWord(w) && |rest| > 0 && IsSpace(rest[0])
    ensures WordLength(w + rest) == |w|
  {
    var s := w + rest;
    assert s[..|w|] == w;
    assert s[|w|] == rest[0];
  }

  /** `split()` recovers the words of a text in which each word is followed by one whitespace character. */
  lemma {:induction false} SplitTerminated(ws: seq<string>, c: char)
    requires IsSpace(c)
    requires forall k :: 0 <= k < |ws| ==> IsWord(ws[k])
    ensures SplitWhitespace(Terminated(ws, c)) == ws
    decreases |ws|
  {
    if ws != [] {
      var s := Terminated(ws, c);
      var rest := Terminated(ws[1..], c);
      assert s == ws[0] + ([c] + rest);
      assert LStrip(s) == s;
      WordLengthOfWord(ws[0], [c] + rest);
      assert s[..|ws[0]|] == ws[0];
      assert s[|ws[0]|..] == [c] + rest;
      SplitSkipsSpace(c, rest);
      SplitTerminated(ws[1..], c);
    }
  }

  /** Index of the first `c` in `s`, or `|s|` when there is none (`s.find(c)` with -1 read as `|s|`). */
  function IndexOf(s: string, c: char): (n: nat)
    ensures n <= |s| && c !in s[..n]
    ensures n < |s| ==> s[n] == c
  {
    if |s| == 0 || s[0] == c then 0 else 1 + IndexOf(s[1..], c)
  }

  /** Whitespace in front of a text does not change what `lstrip` leaves of it. */
  lemma {:induction false} LStripAfterSpaces(p: string, q: string)
    requires forall i :: 0 <= i < |p| ==> IsSpace(p[i])
    ensures LStrip(p + q) == LStrip(q)
    decreases |p|
  {
    if p != [] {
      assert (p + q)[0] == p[0] && IsSpace(p[0]);
      assert (p + q)[1..] == p[1..] + q;
      forall i | 0 <= i < |p[1..]| ensures IsSpace(p[1..][i]) {
        assert p[1..][i] == p[i + 1];
      }
      LStripAfterSpaces(p[1..], q);
    } else {
      assert p + q == q;
    }
  }

  /** A word's length does not look past the whitespace that ends it. */
  lemma {:induction false} WordLengthBeforeSpace(t: string, c: char, b: string)
    requires IsSpace(c)
    ensures WordLength(t + [c] + b) == WordLength(t)
    decreases |t|
  {
    var u := t + [c] + b;
    if t == [] {
      assert u[0] == c;
    } else {
      assert u[0] == t[0];
      if !IsSpace(t[0]) {
        assert u[1..] == t[1..] + [c] + b;
        WordLengthBeforeSpace(t[1..], c, b);
      }
    }
  }

  /** A word splits into itself. */
  lemma SplitWord(w: string)
    requires IsWord(w)
    ensures SplitWhitespace(w) == [w]
  {
    assert LStrip(w) == w;
    assert WordLength(w) == |w|;
    assert w[..|w|] == w && w[|w|..] == [];
  }

  /** `split()` reads only what `lstrip` leaves: the first word, then the split of the rest. */
  lemma SplitUnfold(s: string)
    ensures LStrip(s) == [] ==> SplitWhitespace(s) == []
    ensures LStrip(s) != [] ==>
      var t := LStrip(s);
      0 < WordLength(t) &&
      SplitWhitespace(s) == [t[..WordLength(t)]] + SplitWhitespace(t[WordLength(t)..])
  {
  }

  /** Regrouping `a + [x] + b` after cutting `a` in two. */
  lemma Regroup<T>(a: seq<T>, front: seq<T>, back: seq<T>, x: T, b: seq<T>)
    requires a == front + back
    ensures a + [x] + b == front + (back + [x] + b)
  {
  }

  /** The first word of `a + [c] + b` is the first word of `a`, when `a` has one. */
  lemma SplitAtSpaceStep(a: string, c: char, b: string)
    requires IsSpace(c) && LStrip(a) != []
    ensures var t := LStrip(a);
      var n := WordLength(t);
      0 < n <= |t| &&
      SplitWhitespace(a) == [t[..n]] + SplitWhitespace(t[n..]) &&
      SplitWhitespace(a + [c] + b) == [t[..n]] + SplitWhitespace(t[n..] + [c] + b)
  {
    var t := LStrip(a);
    var u := t + [c] + b;
    LStripBeforeSpace(a, c, b);
    var n := WordLength(t);
    WordLengthBeforeSpace(t, c, b);
    SplitUnfold(a);
    SplitUnfold(a + [c] + b);
    TakeDrop(t, n);
    Regroup(t, t[..n], t[n..], c, b);
    assert u[..n] == t[..n];
  }

  /** Once `a` has a word, `lstrip` of `a + [c] + b` stops where `lstrip` of `a` does. */
  lemma LStripBeforeSpace(a: string, c: char, b: string)
    requires LStrip(a) != []
    ensures LStrip(a + [c] + b) == LStrip(a) + [c] + b
  {
    var t := LStrip(a);
    LStripSpec(a);
    var blanks := a[..|a| - |t|];
    TakeDrop(a, |a| - |t|);
    var u := t + [c] + b;
    Regroup(a, blanks, t, c, b);
    LStripAfterSpaces(blanks, u);
    assert u[0] == t[0];
  }

  /** Without a word in `a`, the split of `a + [c] + b` is that of `b`. */
  lemma SplitAtSpaceBlank(a: string, c: char, b: string)
    requires IsSpace(c) && LStrip(a) == []
    ensures SplitWhitespace(a) == [] && SplitWhitespace(a + [c] + b) == SplitWhitespace(b)
  {
    LStripSpec(a);
    assert a[..|a|] == a;
    forall i | 0 <= i < |a + [c]| ensures IsSpace((a + [c])[i]) {
    }
    LStripAfterSpaces(a + [c], b);
    SplitUnfold(a);
    SplitUnfold(a + [c] + b);
    SplitUnfold(b);
  }

  /**
    `split()` cuts at every whitespace character, wherever it stands: the text on either side of one
    splits on its own, so leading, trailing and repeated whitespace produce no empty words.
   */
  lemma {:induction false} SplitAtSpace(a: string, c: char, b: string)
    requires IsSpace(c)
    ensures SplitWhitespace(a + [c] + b) == SplitWhitespace(a) + SplitWhitespace(b)
    decreases |a|
  {
    if LStrip(a) == [] {
      SplitAtSpaceBlank(a, c, b);
    } else {
      var t := LStrip(a);
      LStripSpec(a);
      SplitAtSpaceStep(a, c, b);
      var n := WordLength(t);
      SplitAtSpace(t[n..], c, b);
    }
  }

  /** `s.split(c)`: the pieces between occurrences of `c`; joining them with `c` gives `s` back. */
  function SplitOn(s: string, c: char): (r: seq<string>)
    ensures |r| > 0
    ensures forall k :: 0 <= k < |r| ==> c !in r[k]
    ensures Join(r, [c]) == s
    decreases |s|
  {
    var n := IndexOf(s, c);
    if n == |s| then [s]
    else
      var rest := SplitOn(s[n + 1..], c);
      assert s == s[..n] + [c] + s[n + 1..];
      [s[..n]] + rest
  }

  lemma IndexOfPiece(w: string, c: char, rest: string)
    requires c !in w
    ensures IndexOf(w + [c] + rest, c) == |w|
  {
    var s := w + [c] + rest;
    assert s[..|w|] == w;
    assert s[|w|] == c;
  }

  /** `c.join(xs).split(c) == xs` whenever no piece holds `c` (and there is at least one piece). */
  lemma {:induction false} SplitOnJoin(xs: seq<string>, c: char)
    requires |xs| > 0
    requires forall k :: 0 <= k < |xs| ==> c !in xs[k]
    ensures SplitOn(Join(xs, [c]), c) == xs
    decreases |xs|
  {
    if |xs| > 1 {
      var rest := Join(xs[1..], [c]);
      var s := xs[0] + [c] + rest;
      assert Join(xs, [c]) == s;
      IndexOfPiece(xs[0], c, rest);
      assert s[..|xs[0]|] == xs[0];
      assert s[|xs[0]| + 1..] == rest;
      SplitOnJoin(xs[1..], c);
    } else {
      assert c !in xs[0];
      assert IndexOf(xs[0], c) == |xs[0]|;
    }
  }

  predicate IsDigit(c: char) {
    '0' <= c <= '9'
  }

  predicate AllDigits(s: string) {
    forall i :: 0 <= i < |s| ==> IsDigit(s[i])
  }

  function DigitChar(d: nat): (c: char)
    requires d < 10
    ensures IsDigit(c) && (c as int) - ('0' as int) == d
  {
    (('0' as int) + d) as char
  }

  /** `str(n)` for a non-negative integer: decimal digits, no leading zero. */
  function NatToString(n: nat): (r: string)
    ensures |r| > 0 && AllDigits(r)
    ensures r[0] == '0' ==> n == 0
    decreases n
  {
    if n < 10 then [DigitChar(n)] else NatToString(n / 10) + [DigitChar(n % 10)]
  }

  /** `str(i)` for any integer. */
  function IntToString(i: int): (r: string)
    ensures |r| > 0 && (r[0] == '-' <==> i < 0)
  {
    if i < 0 then "-" + NatToString(-i) else NatToString(i)
  }

  /** The number a string of decimal digits denotes (`int(s)`). */
  function DigitsValue(s: string): nat
    requires AllDigits(s)
  {
    if s == [] then 0 else DigitsValue(s[..|s| - 1]) * 10 + ((s[|s| - 1] as int) - ('0' as int))
  }

  /** `int(str(n)) == n`. */
  lemma {:induction false} NatToStringRoundTrip(n: nat)
    ensures DigitsValue(NatToString(n)) == n
    decreases n
  {
    if n >= 10 {
      NatToStringRoundTrip(n / 10);
      var s := NatToString(n);
      assert s[..|s| - 1] == NatToString(n / 10);
    }
  }

  /** Leading zeros do not change the value of a digit string. */
  lemma {:induction false} LeadingZeros(z: nat, s: string)
    requires AllDigits(s)
    ensures AllDigits(Repeat('0', z) + s) && DigitsValue(Repeat('0', z) + s) == DigitsValue(s)
    decreases |s|
  {
    var t := Repeat('0', z) + s;
    if s == [] {
      assert t == Repeat('0', z);
      ZerosValue(z);
    } else {
      assert t[..|t| - 1] == Repeat('0', z) + s[..|s| - 1];
      LeadingZeros(z, s[..|s| - 1]);
    }
  }


  lemma {:induction false} ZerosValue(z: nat)
    ensures AllDigits(Repeat('0', z)) && DigitsValue(Repeat('0', z)) == 0
  {
    if z > 0 {
      ZerosValue(z - 1);
    }
  }
}
