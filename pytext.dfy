/** The Python string built-ins the tool relies on (`str.strip`, `str.split`,
    `str.lower`, `str.isdigit`, `str.startswith`, the `in` operator, reading a
    text file line by line, `os.path.join`), over `string` (= `seq<char>`). */
module PyText {

  /** Python's whitespace (`str.isspace`), which is also what `str.split()`,
      `str.strip()` and `\s` in a `re` pattern over `str` use. */
  predicate IsSpace(c: char) { c in SpaceChars }

  /** The characters `str.isspace` accepts. */
  const SpaceChars: set<char> := {
    '\t', '\n', '\U{B}', '\U{C}', '\r', '\U{1C}', '\U{1D}', '\U{1E}', '\U{1F}', ' ', '\U{85}', '\U{A0}',
    '\U{1680}', '\U{2000}', '\U{2001}', '\U{2002}', '\U{2003}', '\U{2004}', '\U{2005}', '\U{2006}',
    '\U{2007}', '\U{2008}', '\U{2009}', '\U{200A}', '\U{2028}', '\U{2029}', '\U{202F}', '\U{205F}', '\U{3000}' }

  predicate IsDigit(c: char) { '0' <= c <= '9' }

  lemma DigitNotSpace(c: char)
    requires IsDigit(c)
    ensures !IsSpace(c)
  {
  }

  predicate IsAsciiLetter(c: char) { ('a' <= c <= 'z') || ('A' <= c <= 'Z') }

  /** A line break as universal-newline reading sees one. */
  predicate IsLineBreak(c: char) { c == '\n' || c == '\r' }

  predicate NoSpace(w: string) { forall i :: 0 <= i < |w| ==> !IsSpace(w[i]) }

  predicate NoLineBreak(w: string) { forall i :: 0 <= i < |w| ==> !IsLineBreak(w[i]) }

  /** `s.isdigit()`: non-empty and every character a digit. */
  predicate IsDigits(s: string) { |s| > 0 && forall i :: 0 <= i < |s| ==> IsDigit(s[i]) }

  /** Neither end of `w` is whitespace, i.e. `w.strip() == w` for non-empty `w`. */
  predicate Stripped(w: string) { w == [] || (!IsSpace(w[0]) && !IsSpace(w[|w| - 1])) }

  /** The character classes that the tool scans runs of: `[~\d.]` is the
      class of the number part of a speed or a size in yt-dlp's output. */
  datatype CharClass = Space | Word | Digit | NumberChar | Letter | LineChar

  predicate InClass(c: char, k: CharClass)
  {
    match k
    case Space => IsSpace(c)
    case Word => !IsSpace(c)
    case Digit => IsDigit(c)
    case NumberChar => c == '~' || c == '.' || IsDigit(c)
    case Letter => IsAsciiLetter(c)
    case LineChar => !IsLineBreak(c)
  }

  /** Length of the longest run of characters of class `k` that starts at `i`. */
  function RunLen(s: string, i: nat, k: CharClass): (n: nat)
    requires i <= |s|
    ensures i + n <= |s|
    decreases |s| - i
  {
    if i < |s| && InClass(s[i], k) then 1 + RunLen(s, i + 1, k) else 0
  }

  /** The run stops at the end of `s` or at a character outside class `k`. */
  lemma {:induction false} RunLenStops(s: string, i: nat, k: CharClass)
    requires i <= |s|
    ensures i + RunLen(s, i, k) == |s| || !InClass(s[i + RunLen(s, i, k)], k)
    decreases |s| - i
  {
    if i < |s| && InClass(s[i], k) {
      RunLenStops(s, i + 1, k);
    }
  }

  /** Every character of the run is of class `k`. */
  lemma {:induction false} RunLenSpan(s: string, i: nat, k: CharClass)
    requires i <= |s|
    ensures forall j :: i <= j < i + RunLen(s, i, k) ==> InClass(s[j], k)
    decreases |s| - i
  {
    if i < |s| && InClass(s[i], k) {
      RunLenSpan(s, i + 1, k);
    }
  }

  /** A run that is known to stop at `i + m` has length `m`. */
  lemma {:induction false} RunLenExact(s: string, i: nat, m: nat, k: CharClass)
    requires i + m <= |s|
    requires forall j :: i <= j < i + m ==> InClass(s[j], k)
    requires i + m == |s| || !InClass(s[i + m], k)
    ensures RunLen(s, i, k) == m
    decreases m
  {
    if m > 0 {
      RunLenExact(s, i + 1, m - 1, k);
    }
  }

  /** `s.startswith(p)`. */
  predicate StartsWith(s: string, p: string) { |p| <= |s| && s[..|p|] == p }

  /** `p` occurs in `s` starting at index `i`. */
  predicate PrefixAt(s: string, i: nat, p: string)
  {
    i + |p| <= |s| && forall k :: 0 <= k < |p| ==> s[i + k] == p[k]
  }

  /** An occurrence of `p` is the slice of `s` it covers. */
  lemma PrefixAtSlice(s: string, i: nat, p: string)
    requires PrefixAt(s, i, p)
    ensures s[i..i + |p|] == p
  {
    var t := s[i..i + |p|];
    assert forall k :: 0 <= k < |p| ==> t[k] == p[k];
  }

  /** Every slice of `s` occurs where it was taken. */
  lemma SlicePrefixAt(s: string, i: nat, n: nat)
    requires i + n <= |s|
    ensures PrefixAt(s, i, s[i..i + n])
  {
    var p := s[i..i + n];
    assert forall k :: 0 <= k < |p| ==> p[k] == s[i + k];
  }

  /** `t in s` for strings. */
  predicate Contains(s: string, t: string)
    decreases |s|
  {
    StartsWith(s, t) || (|s| > 0 && Contains(s[1..], t))
  }

  /** `Contains` holds exactly when `t` occurs at some index of `s`. */
  lemma {:induction false} ContainsAt(s: string, t: string, i: nat)
    requires PrefixAt(s, i, t)
    ensures Contains(s, t)
    decreases i
  {
    if i == 0 {
      PrefixAtSlice(s, 0, t);
      assert s[..|t|] == t;
    } else {
      forall k | 0 <= k < |t| ensures s[1..][i - 1 + k] == t[k] {
        assert s[i + k] == t[k];
      }
      ContainsAt(s[1..], t, i - 1);
    }
  }

  /** A string contains every piece it is built from. */
  lemma ContainsMiddle(a: string, t: string, b: string)
    ensures Contains(a + t + b, t)
  {
    var s := a + t + b;
    forall k | 0 <= k < |t| ensures s[|a| + k] == t[k] {
    }
    ContainsAt(s, t, |a|);
  }

  /** Leading whitespace removed (`s.lstrip()`). */
  function TrimLeft(s: string): (r: string)
    ensures |r| <= |s| && r == s[|s| - |r|..]
    ensures r == [] || !IsSpace(r[0])
    ensures forall i :: 0 <= i < |s| - |r| ==> IsSpace(s[i])
  {
    RunLenSpan(s, 0, Space);
    RunLenStops(s, 0, Space);
    s[RunLen(s, 0, Space)..]
  }

  /** Trailing whitespace removed (`s.rstrip()`). */
  function TrimRight(s: string): (r: string)
    ensures |r| <= |s| && r == s[..|r|]
    ensures r == [] || !IsSpace(r[|r| - 1])
    decreases |s|
  {
    if s != [] && IsSpace(s[|s| - 1]) then TrimRight(s[..|s| - 1]) else s
  }

  /** What `rstrip()` drops is whitespace. */
  lemma {:induction false} TrimRightDropsSpace(s: string)
    ensures forall i :: |TrimRight(s)| <= i < |s| ==> IsSpace(s[i])
    decreases |s|
  {
    if s != [] && IsSpace(s[|s| - 1]) {
      TrimRightDropsSpace(s[..|s| - 1]);
    }
  }

  /** `s.strip()`. */
  function Strip(s: string): (r: string)
  {
    TrimRight(TrimLeft(s))
  }

  /** `s.strip()` keeps exactly the middle of `s`: what it drops is whitespace
      at the two ends, and what it keeps begins and ends with non-whitespace. */
  lemma StripSpec(s: string)
    ensures var a := |s| - |TrimLeft(s)|; var r := Strip(s);
      && Stripped(r) && a + |r| <= |s| && r == s[a..a + |r|]
      && (forall i :: 0 <= i < a ==> IsSpace(s[i]))
      && (forall i :: a + |r| <= i < |s| ==> IsSpace(s[i]))
  {
    var l := TrimLeft(s);
    var a := |s| - |l|;
    var r := Strip(s);
    TrimRightDropsSpace(l);
    forall i | a + |r| <= i < |s| ensures IsSpace(s[i]) {
      assert s[i] == l[i - a];
    }
  }

  /** A string whose ends are not whitespace is its own strip. */
  lemma StripStripped(s: string)
    requires Stripped(s)
    ensures Strip(s) == s
  {
  }

  /** A trailing line break does not survive `strip()`. */
  lemma {:induction false} StripTrailingBreak(w: string)
    requires w != [] && Stripped(w)
    ensures Strip(w + "\n") == w
  {
    var t := w + "\n";
    assert t[0] == w[0];
    assert RunLen(t, 0, Space) == 0;
    assert TrimLeft(t) == t;
    assert t[..|t| - 1] == w;
    assert TrimRight(t) == TrimRight(w);
  }

  /** `s.split()` with no argument: the maximal runs of non-whitespace, in order. */
  function Split(s: string): seq<string>
  {
    SplitFrom(s, 0)
  }

  /** The words of `s[i..]`. */
  function SplitFrom(s: string, i: nat): seq<string>
    requires i <= |s|
    decreases |s| - i
  {
    if i == |s| then []
    else if IsSpace(s[i]) then SplitFrom(s, i + 1)
    else
      var n := RunLen(s, i, Word);
      [s[i..i + n]] + SplitFrom(s, i + n)
  }

  /** The words `split()` returns are non-empty and hold no whitespace. */
  lemma {:induction false} SplitFromWords(s: string, i: nat)
    requires i <= |s|
    ensures forall k :: 0 <= k < |SplitFrom(s, i)| ==> SplitFrom(s, i)[k] != [] && NoSpace(SplitFrom(s, i)[k])
    decreases |s| - i
  {
    if i < |s| {
      if IsSpace(s[i]) {
        SplitFromWords(s, i + 1);
      } else {
        RunLenSpan(s, i, Word);
        SplitFromWords(s, i + RunLen(s, i, Word));
      }
    }
  }

  /** The words of `" ".join(ws)`. */
  function JoinSpaced(ws: seq<string>): string
  {
    if ws == [] then "" else if |ws| == 1 then ws[0] else ws[0] + " " + JoinSpaced(ws[1..])
  }

  /** Every character of `s` that is not whitespace, in order. */
  function NonSpace(s: string): string
  {
    if s == [] then [] else (if IsSpace(s[0]) then [] else [s[0]]) + NonSpace(s[1..])
  }

  function Concat(ws: seq<string>): string
  {
    if ws == [] then "" else ws[0] + Concat(ws[1..])
  }

  lemma {:induction false} NonSpaceAppend(a: string, b: string)
    ensures NonSpace(a + b) == NonSpace(a) + NonSpace(b)
    decreases |a|
  {
    if a == [] {
      assert a + b == b;
    } else {
      var x := if IsSpace(a[0]) then [] else [a[0]];
      assert (a + b)[0] == a[0] && (a + b)[1..] == a[1..] + b;
      assert NonSpace(a + b) == x + NonSpace(a[1..] + b);
      NonSpaceAppend(a[1..], b);
      assert x + (NonSpace(a[1..]) + NonSpace(b)) == (x + NonSpace(a[1..])) + NonSpace(b);
    }
  }

  lemma {:induction false} NonSpaceOfWord(w: string)
    requires NoSpace(w)
    ensures NonSpace(w) == w
    decreases |w|
  {
    if w != [] {
      NonSpaceOfWord(w[1..]);
    }
  }

  lemma {:induction false} NonSpaceOfBlank(w: string)
    requires forall i :: 0 <= i < |w| ==> IsSpace(w[i])
    ensures NonSpace(w) == []
    decreases |w|
  {
    if w != [] {
      NonSpaceOfBlank(w[1..]);
    }
  }

  /** `split()` loses only whitespace: its words, put together, are the
      non-whitespace characters of `s[i..]` in order. */
  lemma {:induction false} SplitFromKeepsContent(s: string, i: nat)
    requires i <= |s|
    ensures Concat(SplitFrom(s, i)) == NonSpace(s[i..])
    decreases |s| - i
  {
    if i < |s| {
      assert s[i..][1..] == s[i + 1..];
      if IsSpace(s[i]) {
        SplitFromKeepsContent(s, i + 1);
      } else {
        var n := RunLen(s, i, Word);
        var w := s[i..i + n];
        var rest := SplitFrom(s, i + n);
        RunLenSpan(s, i, Word);
        assert ([w] + rest)[1..] == rest;
        assert s[i..] == w + s[i + n..];
        NonSpaceAppend(w, s[i + n..]);
        NonSpaceOfWord(w);
        SplitFromKeepsContent(s, i + n);
      }
    }
  }

  lemma SplitKeepsContent(s: string)
    ensures Concat(Split(s)) == NonSpace(s)
  {
    SplitFromKeepsContent(s, 0);
    assert s[0..] == s;
  }

  /** A word that ends at whitespace or at the end is the next word `split()` returns. */
  lemma SplitFromWord(s: string, i: nat, w: string)
    requires w != [] && NoSpace(w) && PrefixAt(s, i, w)
    requires i + |w| == |s| || IsSpace(s[i + |w|])
    ensures SplitFrom(s, i) == [w] + SplitFrom(s, i + |w|)
  {
    WordRunLen(s, i, w);
    PrefixAtSlice(s, i, w);
  }

  lemma WordRunLen(s: string, i: nat, w: string)
    requires w != [] && NoSpace(w) && PrefixAt(s, i, w)
    requires i + |w| == |s| || IsSpace(s[i + |w|])
    ensures !IsSpace(s[i]) && RunLen(s, i, Word) == |w|
  {
    forall k | i <= k < i + |w| ensures InClass(s[k], Word) {
      assert s[i + (k - i)] == w[k - i];
    }
    RunLenExact(s, i, |w|, Word);
  }

  /** `ws` joined by single spaces is what `s` holds from `i` on, word by word. */
  predicate JoinedAt(s: string, i: nat, ws: seq<string>)
    decreases |ws|
  {
    if ws == [] then i == |s|
    else
      && PrefixAt(s, i, ws[0])
      && if |ws| == 1 then i + |ws[0]| == |s|
         else i + |ws[0]| < |s| && s[i + |ws[0]|] == ' ' && JoinedAt(s, i + |ws[0]| + 1, ws[1..])
  }

  /** Splitting words joined by single spaces gives the words back. */
  lemma {:induction false} SplitFromJoined(s: string, i: nat, ws: seq<string>)
    requires JoinedAt(s, i, ws)
    requires forall k :: 0 <= k < |ws| ==> ws[k] != [] && NoSpace(ws[k])
    ensures i <= |s| && SplitFrom(s, i) == ws
    decreases |ws|
  {
    if ws != [] {
      var w := ws[0];
      SplitFromWord(s, i, w);
      if |ws| == 1 {
        assert ws == [w];
      } else {
        assert SplitFrom(s, i + |w|) == SplitFrom(s, i + |w| + 1);
        SplitFromJoined(s, i + |w| + 1, ws[1..]);
        assert ws == [w] + ws[1..];
      }
    }
  }

  /** The text `" ".join(ws)` holds the words joined by single spaces. */
  lemma {:induction false} JoinedAtOf(s: string, i: nat, ws: seq<string>)
    requires i <= |s| && s[i..] == JoinSpaced(ws)
    ensures JoinedAt(s, i, ws)
    decreases |ws|
  {
    if ws == [] {
      assert |s[i..]| == 0;
    } else if |ws| == 1 {
      assert s[i..] == ws[0];
      assert s[i..i + |ws[0]|] == ws[0];
      SlicePrefixAt(s, i, |ws[0]|);
    } else {
      JoinedShape(s, i, ws);
      JoinedAtOf(s, i + |ws[0]| + 1, ws[1..]);
    }
  }

  /** Where words joined by single spaces begin at `i`: the first word, one
      space, and the rest joined the same way. */
  lemma JoinedShape(s: string, i: nat, ws: seq<string>)
    requires i <= |s| && s[i..] == JoinSpaced(ws) && |ws| >= 2
    ensures PrefixAt(s, i, ws[0]) && i + |ws[0]| < |s| && s[i + |ws[0]|] == ' '
    ensures s[i + |ws[0]| + 1..] == JoinSpaced(ws[1..])
  {
    var w := ws[0];
    var tail := JoinSpaced(ws[1..]);
    assert s[i..] == w + " " + tail;
    assert s[i..i + |w|] == (w + " " + tail)[..|w|];
    SlicePrefixAt(s, i, |w|);
    assert s[i + |w| + 1..] == (w + " " + tail)[|w| + 1..];
  }

  lemma SplitJoinSpaced(ws: seq<string>)
    requires forall k :: 0 <= k < |ws| ==> ws[k] != [] && NoSpace(ws[k])
    ensures Split(JoinSpaced(ws)) == ws
  {
    var s := JoinSpaced(ws);
    assert s[0..] == s;
    JoinedAtOf(s, 0, ws);
    SplitFromJoined(s, 0, ws);
  }

  /** The lines of a text file as `for line in f` yields them in text mode
      (universal newlines: "\n", "\r" and "\r\n" all end a line and each is
      read as "\n"); the last line may lack its terminator. */
  function ReadLines(t: string): (r: seq<string>)
    ensures forall k :: 0 <= k < |r| ==> r[k] != []
    ensures forall k :: 0 <= k < |r| - 1 ==> r[k][|r[k]| - 1] == '\n'
    decreases |t|
  {
    if t == [] then []
    else
      var k := RunLen(t, 0, LineChar);
      if k == |t| then [t]
      else
        var skip := if t[k] == '\r' && k + 1 < |t| && t[k + 1] == '\n' then 2 else 1;
        [t[..k] + "\n"] + ReadLines(t[k + skip..])
  }

  /** A line written with its "\n" is read back as that line. */
  lemma ReadLinesCons(l: string, rest: string)
    requires NoLineBreak(l)
    ensures ReadLines(l + "\n" + rest) == [l + "\n"] + ReadLines(rest)
  {
    var t := l + "\n" + rest;
    RunLenExact(t, 0, |l|, LineChar);
    assert t[..|l|] == l;
    assert t[|l| + 1..] == rest;
  }

  /** Writing out the lines a file was read as, and reading them again, gives the same lines. */
  lemma {:induction false} ConcatReadLines(text: string)
    ensures ReadLines(Concat(ReadLines(text))) == ReadLines(text)
    decreases |text|
  {
    if text != [] {
      var k := RunLen(text, 0, LineChar);
      if k < |text| {
        var skip := if text[k] == '\r' && k + 1 < |text| && text[k + 1] == '\n' then 2 else 1;
        var rest := text[k + skip..];
        assert ReadLines(text) == [text[..k] + "\n"] + ReadLines(rest);
        assert Concat(ReadLines(text)) == text[..k] + "\n" + Concat(ReadLines(rest));
        RunLenSpan(text, 0, LineChar);
        assert NoLineBreak(text[..k]);
        ReadLinesCons(text[..k], Concat(ReadLines(rest)));
        ConcatReadLines(rest);
      } else {
        assert ReadLines(text) == [text];
        assert Concat([text]) == text;
      }
    }
  }

  /** A line as it is written: one "\n" at its end and no other line break. */
  predicate Terminated(l: string)
  {
    |l| > 0 && l[|l| - 1] == '\n' && NoLineBreak(l[..|l| - 1])
  }

  lemma TerminatedLine(key: string, value: string)
    requires NoLineBreak(key) && NoLineBreak(value)
    ensures Terminated(key + value + "\n")
  {
    assert (key + value + "\n")[..|key + value|] == key + value;
  }

  /** Lines that are each terminated read back as themselves. */
  lemma {:induction false} ReadBackLines(ls: seq<string>)
    requires forall k :: 0 <= k < |ls| ==> Terminated(ls[k])
    ensures ReadLines(Concat(ls)) == ls
    decreases |ls|
  {
    if ls != [] {
      var l := ls[0];
      var body := l[..|l| - 1];
      assert l == body + "\n";
      assert Concat(ls) == body + "\n" + Concat(ls[1..]);
      ReadLinesCons(body, Concat(ls[1..]));
      ReadBackLines(ls[1..]);
    }
  }

  function LowerChar(c: char): char
  {
    if 'A' <= c <= 'Z' then (c as int + 32) as char else c
  }

  /** `s.lower()` on ASCII letters. */
  function Lower(s: string): (r: string)
    ensures |r| == |s|
  {
    seq(|s|, i requires 0 <= i < |s| => LowerChar(s[i]))
  }

  /** An independent reading of case-insensitive equality, letter by letter. */
  predicate EqualsIgnoringCase(a: string, b: string)
  {
    |a| == |b| && forall i :: 0 <= i < |a| ==> LowerChar(a[i]) == LowerChar(b[i])
  }

  /** Comparing `s.lower()` with a lower-case word is comparing ignoring case. */
  lemma LowerEqualsWord(s: string, w: string)
    requires forall i :: 0 <= i < |w| ==> LowerChar(w[i]) == w[i]
    ensures Lower(s) == w <==> EqualsIgnoringCase(s, w)
  {
    if EqualsIgnoringCase(s, w) {
      assert forall i :: 0 <= i < |s| ==> Lower(s)[i] == w[i];
    }
  }

  /** `os.path.join(a, b)` for one component (POSIX). */
  function PathJoin(a: string, b: string): (r: string)
  {
    if StartsWith(b, "/") then b
    else if a == [] || a[|a| - 1] == '/' then a + b
    else a + "/" + b
  }

  /** A relative name lands directly under a directory whose path does not end in '/'. */
  lemma PathJoinRelative(a: string, b: string)
    requires a != [] && a[|a| - 1] != '/'
    requires b == [] || b[0] != '/'
    ensures PathJoin(a, b) == a + "/" + b
    ensures StartsWith(PathJoin(a, b), a + "/")
  {
    assert (a + "/" + b)[..|a| + 1] == a + "/";
  }

  /** `home.rstrip('/')` */
  function TrimSlashes(home: string): string
  {
    if home != [] && home[|home| - 1] == '/' then TrimSlashes(home[..|home| - 1]) else home
  }

  /** `os.path.expanduser(p)` with `home` as the value of `$HOME`, for `~` and
      `~/...`; any other text, `~user` forms included, is left as it is. */
  function ExpandUser(home: string, p: string): string
  {
    if p != [] && p[0] == '~' && (|p| == 1 || p[1] == '/') then
      var r := TrimSlashes(home) + p[1..];
      if r == [] then "/" else r
    else p
  }
}
