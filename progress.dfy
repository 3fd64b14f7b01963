/** The progress panel of suppressed mode: the five `re.search` patterns
    applied to each line of yt-dlp's output, the playlist counters that
    persist from line to line, and the two status texts. */
module Progress {
  import opened Wrappers
  import opened PyText

  /** The patterns searched for in a line, in the order the source lists them:
      `\(frag (\d+)/(\d+)\)`, `ETA (\d{2}:\d{2})`, `at\s+([~\d.]+[A-Za-z]+/s)`,
      `of ~\s+([~\d.]+[A-Za-z]+)` and `Downloading item (\d+) of (\d+)`. */
  datatype Pattern = Frag | Eta | Speed | Size | Item

  /** The captured groups; a one-group pattern leaves `second` empty. */
  datatype Groups = Groups(first: string, second: string)

  /** `n` characters from index `i` on all belong to class `k`. */
  predicate AllIn(s: string, i: nat, n: nat, k: CharClass)
  {
    i + n <= |s| && forall j :: i <= j < i + n ==> InClass(s[j], k)
  }

  /** The character at index `j` is `c`. */
  predicate CharAt(s: string, j: nat, c: char)
  {
    j < |s| && s[j] == c
  }

  /** `t` splits at `p` into a non-empty `[~\d.]+` part and a non-empty `[A-Za-z]+` part. */
  predicate NumberUnitSplit(t: string, p: nat)
  {
    0 < p < |t| && AllIn(t, 0, p, NumberChar) && AllIn(t, p, |t| - p, Letter)
  }

  /** `t` is matched in full by `[~\d.]+[A-Za-z]+`. */
  predicate NumberUnit(t: string)
  {
    exists p :: 0 < p < |t| && NumberUnitSplit(t, p)
  }

  /** `t` is matched in full by `[~\d.]+[A-Za-z]+/s`. */
  predicate SpeedText(t: string)
  {
    |t| >= 2 && t[|t| - 2] == '/' && t[|t| - 1] == 's' && NumberUnit(t[..|t| - 2])
  }

  /** `hh:mm` as `\d{2}:\d{2}` matches it. */
  predicate IsClock(g: string)
  {
    |g| == 5 && IsDigit(g[0]) && IsDigit(g[1]) && g[2] == ':' && IsDigit(g[3]) && IsDigit(g[4])
  }

  // ---------------------------------------------------------------------------
  // What each pattern matches at index `i` (the regex's own reading), piece by
  // piece, with the choices the regex engine makes (how much whitespace `\s+`
  // takes, how long a group is) as parameters.

  /** `\(frag (\d+)/(\d+)\)` matches at `i`, capturing `g`. */
  predicate FragMatches(s: string, i: nat, g: Groups)
  {
    var n, m := |g.first|, |g.second|;
    && PrefixAt(s, i, "(frag ") && n > 0 && AllIn(s, i + 6, n, Digit) && CharAt(s, i + 6 + n, '/')
    && m > 0 && AllIn(s, i + 7 + n, m, Digit) && CharAt(s, i + 7 + n + m, ')')
    && g == Groups(s[i + 6..i + 6 + n], s[i + 7 + n..i + 7 + n + m])
  }

  predicate EtaMatches(s: string, i: nat, g: Groups)
  {
    PrefixAt(s, i, "ETA ") && IsClock(g.first) && PrefixAt(s, i + 4, g.first) && g.second == []
  }

  /** The `n` characters from `j` on are a `[~\d.]+[A-Za-z]+` text whose digits
      part is `p` long. */
  predicate UnitSplitAt(s: string, j: nat, n: nat, p: nat)
  {
    0 < p < n && AllIn(s, j, p, NumberChar) && AllIn(s, j + p, n - p, Letter)
  }

  /** The `n` characters from `j` on are a `[~\d.]+[A-Za-z]+` text. */
  predicate UnitAt(s: string, j: nat, n: nat)
  {
    exists p :: 0 < p < n && UnitSplitAt(s, j, n, p)
  }

  /** The `n` characters from `j` on are a `[~\d.]+[A-Za-z]+/s` text. */
  predicate SpeedTextAt(s: string, j: nat, n: nat)
  {
    n >= 2 && UnitAt(s, j, n - 2) && PrefixAt(s, j + n - 2, "/s")
  }

  /** `at`, then `w` whitespace characters, then a speed text of `n` characters. */
  predicate SpeedMatches(s: string, i: nat, w: nat, n: nat)
  {
    PrefixAt(s, i, "at") && w > 0 && AllIn(s, i + 2, w, Space) && SpeedTextAt(s, i + 2 + w, n)
  }

  /** `of ~`, then `w` whitespace characters, then a size text of `n` characters. */
  predicate SizeMatches(s: string, i: nat, w: nat, n: nat)
  {
    PrefixAt(s, i, "of ~") && w > 0 && AllIn(s, i + 4, w, Space) && UnitAt(s, i + 4 + w, n)
  }

  /** `Downloading item (\d+) of (\d+)` matches at `i`, capturing `g`. */
  predicate ItemMatches(s: string, i: nat, g: Groups)
  {
    var n, m := |g.first|, |g.second|;
    && PrefixAt(s, i, "Downloading item") && CharAt(s, i + 16, ' ')
    && n > 0 && AllIn(s, i + 17, n, Digit) && PrefixAt(s, i + 17 + n, " of ")
    && m > 0 && AllIn(s, i + 21 + n, m, Digit)
    && g == Groups(s[i + 17..i + 17 + n], s[i + 21 + n..i + 21 + n + m])
  }

  /** A greedy trailing group that ends at `e` cannot be extended: the next
      character, if any, is not of the group's last class. */
  predicate EndsRun(s: string, e: nat, k: CharClass)
  {
    e == |s| || (e < |s| && !InClass(s[e], k))
  }

  // ---------------------------------------------------------------------------
  // The matchers: the match the regex engine reports at index `i`, if any.

  function FragAt(s: string, i: nat): Option<Groups>
    requires i <= |s|
  {
    if !PrefixAt(s, i, "(frag ") then None
    else
      var j := i + 6;
      var n := RunLen(s, j, Digit);
      if n == 0 || !CharAt(s, j + n, '/') then None
      else
        var k := j + n + 1;
        var m := RunLen(s, k, Digit);
        if m == 0 || !CharAt(s, k + m, ')') then None
        else Some(Groups(s[j..j + n], s[k..k + m]))
  }

  function EtaAt(s: string, i: nat): Option<Groups>
    requires i <= |s|
  {
    if PrefixAt(s, i, "ETA ") && i + 9 <= |s| && IsClock(s[i + 4..i + 9])
    then Some(Groups(s[i + 4..i + 9], []))
    else None
  }

  /** Length of the `[~\d.]+[A-Za-z]+` text at `j`, letters taken greedily; 0 if there is none. */
  function UnitLen(s: string, j: nat): nat
    requires j <= |s|
  {
    var n := RunLen(s, j, NumberChar);
    var l := RunLen(s, j + n, Letter);
    if n == 0 || l == 0 then 0 else n + l
  }

  /** Length of the `[~\d.]+[A-Za-z]+/s` text at `j`; 0 if there is none. */
  function SpeedLen(s: string, j: nat): nat
    requires j <= |s|
  {
    var u := UnitLen(s, j);
    if u > 0 && PrefixAt(s, j + u, "/s") then u + 2 else 0
  }

  function SpeedAt(s: string, i: nat): Option<Groups>
    requires i <= |s|
  {
    if !PrefixAt(s, i, "at") then None
    else
      var w := RunLen(s, i + 2, Space);
      var j := i + 2 + w;
      var n := SpeedLen(s, j);
      if w == 0 || n == 0 then None
      else Some(Groups(s[j..j + n], []))
  }

  function SizeAt(s: string, i: nat): Option<Groups>
    requires i <= |s|
  {
    if !PrefixAt(s, i, "of ~") then None
    else
      var w := RunLen(s, i + 4, Space);
      var j := i + 4 + w;
      var u := UnitLen(s, j);
      if w == 0 || u == 0 then None
      else Some(Groups(s[j..j + u], []))
  }

  function ItemAt(s: string, i: nat): Option<Groups>
    requires i <= |s|
  {
    if !PrefixAt(s, i, "Downloading item") || !CharAt(s, i + 16, ' ') then None
    else
      var j := i + 17;
      var n := RunLen(s, j, Digit);
      if n == 0 || !PrefixAt(s, j + n, " of ") then None
      else
        var k := j + n + 4;
        var m := RunLen(s, k, Digit);
        if m == 0 then None
        else Some(Groups(s[j..j + n], s[k..k + m]))
  }

  function MatchAt(p: Pattern, s: string, i: nat): Option<Groups>
    requires i <= |s|
  {
    match p
    case Frag => FragAt(s, i)
    case Eta => EtaAt(s, i)
    case Speed => SpeedAt(s, i)
    case Size => SizeAt(s, i)
    case Item => ItemAt(s, i)
  }

  /** Where a match was found and what it captured. */
  datatype Found = Found(at: nat, groups: Groups)

  /** `re.search` from index `i`: the match at the leftmost index that has one. */
  function Search(p: Pattern, s: string, i: nat): (r: Option<Found>)
    requires i <= |s|
    ensures r.Some? ==> i <= r.value.at <= |s| && MatchAt(p, s, r.value.at) == Some(r.value.groups)
    ensures forall k :: i <= k <= |s| && (r.None? || k < r.value.at) ==> MatchAt(p, s, k).None?
    decreases |s| - i
  {
    match MatchAt(p, s, i)
    case Some(g) => Some(Found(i, g))
    case None => if i == |s| then None else Search(p, s, i + 1)
  }

  /** The groups of `re.search(pattern, line)`, or `None`. */
  function Find(p: Pattern, line: string): Option<Groups>
  {
    match Search(p, line, 0)
    case Some(f) => Some(f.groups)
    case None => None
  }

  // ---------------------------------------------------------------------------
  // Each matcher reports exactly what its pattern matches.

  lemma PrefixAtChar(s: string, j: nat, t: string, a: nat)
    requires PrefixAt(s, j, t) && a < |t|
    ensures s[j + a] == t[a]
  {
    assert s[j + a] == s[j..j + |t|][a];
  }

  /** A run of digits, read as a string, is a digit string. */
  lemma DigitsOfRun(s: string, j: nat, n: nat)
    requires n > 0 && AllIn(s, j, n, Digit)
    ensures IsDigits(s[j..j + n])
  {
    var t := s[j..j + n];
    assert forall x :: 0 <= x < |t| ==> t[x] == s[j + x];
  }

  /** The run `RunLen` measures, as a stretch of characters of its class. */
  lemma RunAllIn(s: string, i: nat, k: CharClass)
    requires i <= |s|
    ensures AllIn(s, i, RunLen(s, i, k), k)
  {
    RunLenSpan(s, i, k);
  }

  lemma {:induction false} RunLenAtLeast(s: string, i: nat, m: nat, k: CharClass)
    requires AllIn(s, i, m, k)
    ensures RunLen(s, i, k) >= m
    decreases m
  {
    if m > 0 {
      RunLenAtLeast(s, i + 1, m - 1, k);
    }
  }

  lemma FragAtShape(s: string, i: nat)
    requires i <= |s| && FragAt(s, i).Some?
    ensures var n := RunLen(s, i + 6, Digit); var m := RunLen(s, i + 7 + n, Digit);
      && PrefixAt(s, i, "(frag ") && n > 0 && CharAt(s, i + 6 + n, '/') && m > 0 && CharAt(s, i + 7 + n + m, ')')
      && FragAt(s, i).value == Groups(s[i + 6..i + 6 + n], s[i + 7 + n..i + 7 + n + m])
  {
  }

  lemma FragAtSound(s: string, i: nat)
    requires i <= |s| && FragAt(s, i).Some?
    ensures FragMatches(s, i, FragAt(s, i).value)
  {
    FragAtShape(s, i);
    RunAllIn(s, i + 6, Digit);
    RunAllIn(s, i + 7 + RunLen(s, i + 6, Digit), Digit);
  }

  lemma FragAtOf(s: string, i: nat, n: nat, m: nat)
    requires i <= |s| && PrefixAt(s, i, "(frag ") && n > 0 && m > 0
    requires RunLen(s, i + 6, Digit) == n && CharAt(s, i + 6 + n, '/')
    requires RunLen(s, i + 7 + n, Digit) == m && CharAt(s, i + 7 + n + m, ')')
    ensures FragAt(s, i) == Some(Groups(s[i + 6..i + 6 + n], s[i + 7 + n..i + 7 + n + m]))
  {
  }

  lemma FragAtComplete(s: string, i: nat, g: Groups)
    requires i <= |s| && FragMatches(s, i, g)
    ensures FragAt(s, i) == Some(g)
  {
    var n, m := |g.first|, |g.second|;
    RunLenExact(s, i + 6, n, Digit);
    RunLenExact(s, i + 7 + n, m, Digit);
    FragAtOf(s, i, n, m);
  }

  /** `FragAt` captures `g` exactly when `\(frag (\d+)/(\d+)\)` matches at `i` with groups `g`. */
  lemma FragAtSpec(s: string, i: nat, g: Groups)
    requires i <= |s|
    ensures FragAt(s, i) == Some(g) <==> FragMatches(s, i, g)
  {
    if FragAt(s, i) == Some(g) { FragAtSound(s, i); }
    if FragMatches(s, i, g) { FragAtComplete(s, i, g); }
  }

  /** `EtaAt` captures `g` exactly when `ETA (\d{2}:\d{2})` matches at `i` with group `g`. */
  lemma EtaAtSpec(s: string, i: nat, g: Groups)
    requires i <= |s|
    ensures EtaAt(s, i) == Some(g) <==> EtaMatches(s, i, g)
  {
    if EtaAt(s, i) == Some(g) {
      SlicePrefixAt(s, i + 4, 5);
    }
    if EtaMatches(s, i, g) {
      PrefixAtSlice(s, i + 4, g.first);
    }
  }

  lemma NumberCharNotSpace(c: char)
    requires InClass(c, NumberChar)
    ensures !IsSpace(c) && !IsAsciiLetter(c)
  {
  }

  lemma LetterNotNumberChar(c: char)
    requires InClass(c, Letter)
    ensures !InClass(c, NumberChar)
  {
  }

  lemma AllInOfSlice(s: string, j: nat, e: nat, x: nat, y: nat, k: CharClass)
    requires j <= e <= |s| && x <= y <= e - j && AllIn(s, j + x, y - x, k)
    ensures AllIn(s[j..e], x, y - x, k)
  {
  }

  /** What `UnitLen` measures is a `[~\d.]+[A-Za-z]+` text that the letters end. */
  lemma UnitLenSound(s: string, j: nat)
    requires j <= |s| && UnitLen(s, j) > 0
    ensures UnitAt(s, j, UnitLen(s, j)) && EndsRun(s, j + UnitLen(s, j), Letter)
  {
    var n := RunLen(s, j, NumberChar);
    RunAllIn(s, j, NumberChar);
    RunAllIn(s, j + n, Letter);
    RunLenStops(s, j + n, Letter);
    assert UnitSplitAt(s, j, UnitLen(s, j), n);
  }

  /** Where a `[~\d.]+[A-Za-z]+` text occurs, `UnitLen` covers it, and exactly
      when the text is not followed by a letter. */
  lemma UnitLenCovers(s: string, j: nat, m: nat, p: nat)
    requires UnitSplitAt(s, j, m, p)
    ensures !IsSpace(s[j])
    ensures UnitLen(s, j) >= m
    ensures EndsRun(s, j + m, Letter) ==> UnitLen(s, j) == m
  {
    NumberCharNotSpace(s[j]);
    LetterNotNumberChar(s[j + p]);
    RunLenExact(s, j, p, NumberChar);
    RunLenAtLeast(s, j + p, m - p, Letter);
    if EndsRun(s, j + m, Letter) {
      RunLenExact(s, j + p, m - p, Letter);
    }
  }

  /** A `[~\d.]+[A-Za-z]+` text found by position is one as a string. */
  lemma UnitAtSlice(s: string, j: nat, n: nat)
    requires UnitAt(s, j, n)
    ensures j + n <= |s| && NumberUnit(s[j..j + n])
  {
    var p :| 0 < p < n && UnitSplitAt(s, j, n, p);
    AllInOfSlice(s, j, j + n, 0, p, NumberChar);
    AllInOfSlice(s, j, j + n, p, n, Letter);
    assert NumberUnitSplit(s[j..j + n], p);
  }

  /** A `[~\d.]+[A-Za-z]+/s` text found by position is one as a string. */
  lemma SpeedTextSlice(s: string, j: nat, n: nat)
    requires SpeedTextAt(s, j, n)
    ensures j + n <= |s| && SpeedText(s[j..j + n])
  {
    UnitAtSlice(s, j, n - 2);
    assert s[j..j + n][..n - 2] == s[j..j + n - 2];
    PrefixAtChar(s, j + n - 2, "/s", 0);
    PrefixAtChar(s, j + n - 2, "/s", 1);
  }

  /** What `SpeedLen` measures is a `[~\d.]+[A-Za-z]+/s` text. */
  lemma SpeedLenSound(s: string, j: nat)
    requires j <= |s| && SpeedLen(s, j) > 0
    ensures SpeedTextAt(s, j, SpeedLen(s, j))
  {
    UnitLenSound(s, j);
  }

  /** Where a `[~\d.]+[A-Za-z]+/s` text occurs, `SpeedLen` measures exactly it. */
  lemma SpeedLenExact(s: string, j: nat, n: nat)
    requires SpeedTextAt(s, j, n)
    ensures !IsSpace(s[j]) && SpeedLen(s, j) == n
  {
    var p :| 0 < p < n - 2 && UnitSplitAt(s, j, n - 2, p);
    PrefixAtChar(s, j + n - 2, "/s", 0);
    UnitLenCovers(s, j, n - 2, p);
  }

  lemma SpeedAtShape(s: string, i: nat)
    requires i <= |s| && SpeedAt(s, i).Some?
    ensures var w := RunLen(s, i + 2, Space); var n := SpeedLen(s, i + 2 + w);
      PrefixAt(s, i, "at") && w > 0 && n > 0 && SpeedAt(s, i).value == Groups(s[i + 2 + w..i + 2 + w + n], [])
  {
  }

  /** What `SpeedAt` captures is the text that follows the whitespace after
      "at", and `at\s+([~\d.]+[A-Za-z]+/s)` matches there with it as the group. */
  lemma SpeedAtSound(s: string, i: nat)
    requires i <= |s| && SpeedAt(s, i).Some?
    ensures var w := RunLen(s, i + 2, Space); var n := SpeedLen(s, i + 2 + w);
      SpeedMatches(s, i, w, n) && SpeedAt(s, i).value == Groups(s[i + 2 + w..i + 2 + w + n], [])
  {
    SpeedAtShape(s, i);
    RunAllIn(s, i + 2, Space);
    SpeedLenSound(s, i + 2 + RunLen(s, i + 2, Space));
  }

  lemma SpeedAtOf(s: string, i: nat, w: nat, n: nat)
    requires i <= |s| && PrefixAt(s, i, "at") && w > 0 && n > 0
    requires RunLen(s, i + 2, Space) == w && SpeedLen(s, i + 2 + w) == n
    ensures SpeedAt(s, i) == Some(Groups(s[i + 2 + w..i + 2 + w + n], []))
  {
    SpeedLenBound(s, i + 2 + w);
  }

  lemma SpeedLenBound(s: string, j: nat)
    requires j <= |s|
    ensures j + SpeedLen(s, j) <= |s|
  {
  }

  /** Wherever `at\s+([~\d.]+[A-Za-z]+/s)` matches, `SpeedAt` reports that
      match: `\s+` can only take the whole run of whitespace, and the group
      can only end at its "/s". */
  lemma SpeedAtComplete(s: string, i: nat, w: nat, n: nat)
    requires i <= |s| && SpeedMatches(s, i, w, n)
    ensures SpeedAt(s, i) == Some(Groups(s[i + 2 + w..i + 2 + w + n], []))
  {
    SpeedLenExact(s, i + 2 + w, n);
    RunLenExact(s, i + 2, w, Space);
    SpeedAtOf(s, i, w, n);
  }

  lemma SizeAtShape(s: string, i: nat)
    requires i <= |s| && SizeAt(s, i).Some?
    ensures var w := RunLen(s, i + 4, Space); var u := UnitLen(s, i + 4 + w);
      PrefixAt(s, i, "of ~") && w > 0 && u > 0 && SizeAt(s, i).value == Groups(s[i + 4 + w..i + 4 + w + u], [])
  {
  }

  /** What `SizeAt` captures is the text after the whitespace that follows
      "of ~", `of ~\s+([~\d.]+[A-Za-z]+)` matches there with it as the
      group, and, `+` being greedy, no letter follows it. */
  lemma SizeAtSound(s: string, i: nat)
    requires i <= |s| && SizeAt(s, i).Some?
    ensures var w := RunLen(s, i + 4, Space); var n := UnitLen(s, i + 4 + w);
      && SizeMatches(s, i, w, n) && SizeAt(s, i).value == Groups(s[i + 4 + w..i + 4 + w + n], [])
      && EndsRun(s, i + 4 + w + n, Letter)
  {
    SizeAtShape(s, i);
    RunAllIn(s, i + 4, Space);
    UnitLenSound(s, i + 4 + RunLen(s, i + 4, Space));
  }

  lemma SizeAtOf(s: string, i: nat, w: nat, u: nat)
    requires i <= |s| && PrefixAt(s, i, "of ~") && w > 0 && u > 0
    requires RunLen(s, i + 4, Space) == w && UnitLen(s, i + 4 + w) == u
    ensures SizeAt(s, i) == Some(Groups(s[i + 4 + w..i + 4 + w + u], []))
  {
    UnitLenBound(s, i + 4 + w);
  }

  lemma UnitLenBound(s: string, j: nat)
    requires j <= |s|
    ensures j + UnitLen(s, j) <= |s|
  {
  }

  /** Wherever `of ~\s+([~\d.]+[A-Za-z]+)` matches, `SizeAt` reports a match
      after the same whitespace that extends it: the longest one, and the
      same one when no letter follows. */
  lemma SizeAtLongest(s: string, i: nat, w: nat, n: nat)
    requires i <= |s| && SizeMatches(s, i, w, n)
    ensures SizeAt(s, i).Some?
    ensures var h := SizeAt(s, i).value.first; var j := i + 4 + w;
      n <= |h| && j + |h| <= |s| && h == s[j..j + |h|]
    ensures EndsRun(s, i + 4 + w + n, Letter) ==> SizeAt(s, i).value.first == s[i + 4 + w..i + 4 + w + n]
  {
    var j := i + 4 + w;
    var p :| 0 < p < n && UnitSplitAt(s, j, n, p);
    UnitLenCovers(s, j, n, p);
    RunLenExact(s, i + 4, w, Space);
    SizeAtCovers(s, i, w, n);
  }

  lemma SizeAtCovers(s: string, i: nat, w: nat, n: nat)
    requires i <= |s| && PrefixAt(s, i, "of ~") && w > 0 && n > 0
    requires RunLen(s, i + 4, Space) == w && UnitLen(s, i + 4 + w) >= n
    requires EndsRun(s, i + 4 + w + n, Letter) ==> UnitLen(s, i + 4 + w) == n
    ensures SizeAt(s, i).Some?
    ensures var h := SizeAt(s, i).value.first; var j := i + 4 + w;
      n <= |h| && j + |h| <= |s| && h == s[j..j + |h|]
    ensures EndsRun(s, i + 4 + w + n, Letter) ==> SizeAt(s, i).value.first == s[i + 4 + w..i + 4 + w + n]
  {
    UnitLenBound(s, i + 4 + w);
    SizeAtOf(s, i, w, UnitLen(s, i + 4 + w));
  }

  lemma ItemAtShape(s: string, i: nat)
    requires i <= |s| && ItemAt(s, i).Some?
    ensures var n := RunLen(s, i + 17, Digit); var m := RunLen(s, i + 21 + n, Digit);
      && PrefixAt(s, i, "Downloading item") && CharAt(s, i + 16, ' ')
      && n > 0 && PrefixAt(s, i + 17 + n, " of ") && m > 0
      && ItemAt(s, i).value == Groups(s[i + 17..i + 17 + n], s[i + 21 + n..i + 21 + n + m])
  {
  }

  /** The counters are a match of `Downloading item (\d+) of (\d+)` whose second
      number runs as far as the digits do. */
  lemma ItemAtSound(s: string, i: nat)
    requires i <= |s| && ItemAt(s, i).Some?
    ensures var g := ItemAt(s, i).value;
      ItemMatches(s, i, g) && EndsRun(s, i + 21 + |g.first| + |g.second|, Digit)
  {
    ItemAtShape(s, i);
    RunAllIn(s, i + 17, Digit);
    RunAllIn(s, i + 21 + RunLen(s, i + 17, Digit), Digit);
    RunLenStops(s, i + 21 + RunLen(s, i + 17, Digit), Digit);
  }

  lemma ItemAtOf(s: string, i: nat, n: nat, m: nat)
    requires i <= |s| && PrefixAt(s, i, "Downloading item") && CharAt(s, i + 16, ' ') && n > 0 && m > 0
    requires RunLen(s, i + 17, Digit) == n && PrefixAt(s, i + 17 + n, " of ") && RunLen(s, i + 21 + n, Digit) == m
    ensures ItemAt(s, i) == Some(Groups(s[i + 17..i + 17 + n], s[i + 21 + n..i + 21 + n + m]))
  {
  }

  /** Whenever the item pattern matches at `i`, `ItemAt` reports the same first
      number and the longest second number. */
  lemma ItemAtLongest(s: string, i: nat, g: Groups)
    requires i <= |s| && ItemMatches(s, i, g)
    ensures ItemAt(s, i).Some?
    ensures var h := ItemAt(s, i).value;
      h.first == g.first && |g.second| <= |h.second| && h.second[..|g.second|] == g.second
  {
    var n, m := |g.first|, |g.second|;
    var k := i + 21 + n;
    PrefixAtChar(s, i + 17 + n, " of ", 0);
    RunLenExact(s, i + 17, n, Digit);
    RunLenAtLeast(s, k, m, Digit);
    var r := RunLen(s, k, Digit);
    ItemAtOf(s, i, n, r);
    assert s[k..k + r][..m] == s[k..k + m];
  }

  /** The index at which `Find` found its match. */
  lemma FoundAt(p: Pattern, line: string) returns (i: nat)
    requires Find(p, line).Some?
    ensures i <= |line| && MatchAt(p, line, i) == Find(p, line)
  {
    i := Search(p, line, 0).value.at;
  }

  lemma FoundFrag(line: string) returns (i: nat)
    requires Find(Frag, line).Some?
    ensures i <= |line| && FragAt(line, i) == Find(Frag, line)
  {
    i := FoundAt(Frag, line);
  }

  lemma FoundSpeed(line: string) returns (i: nat)
    requires Find(Speed, line).Some?
    ensures i <= |line| && SpeedAt(line, i) == Find(Speed, line)
  {
    i := FoundAt(Speed, line);
  }

  lemma FoundSize(line: string) returns (i: nat)
    requires Find(Size, line).Some?
    ensures i <= |line| && SizeAt(line, i) == Find(Size, line)
  {
    i := FoundAt(Size, line);
  }

  lemma FoundItem(line: string) returns (i: nat)
    requires Find(Item, line).Some?
    ensures i <= |line| && ItemAt(line, i) == Find(Item, line)
  {
    i := FoundAt(Item, line);
  }

  /** The two numbers `FragAt` captures are digit strings. */
  lemma FragAtDigits(s: string, i: nat)
    requires i <= |s| && FragAt(s, i).Some?
    ensures IsDigits(FragAt(s, i).value.first) && IsDigits(FragAt(s, i).value.second)
  {
    FragAtShape(s, i);
    var n := RunLen(s, i + 6, Digit);
    RunAllIn(s, i + 6, Digit);
    RunAllIn(s, i + 7 + n, Digit);
    DigitsOfRun(s, i + 6, n);
    DigitsOfRun(s, i + 7 + n, RunLen(s, i + 7 + n, Digit));
  }

  /** What `SpeedAt` captures is matched in full by `[~\d.]+[A-Za-z]+/s`. */
  lemma SpeedAtText(s: string, i: nat)
    requires i <= |s| && SpeedAt(s, i).Some?
    ensures SpeedText(SpeedAt(s, i).value.first)
  {
    SpeedAtSound(s, i);
    var j := i + 2 + RunLen(s, i + 2, Space);
    SpeedTextSlice(s, j, SpeedLen(s, j));
  }

  /** What `SizeAt` captures is matched in full by `[~\d.]+[A-Za-z]+`. */
  lemma SizeAtText(s: string, i: nat)
    requires i <= |s| && SizeAt(s, i).Some?
    ensures NumberUnit(SizeAt(s, i).value.first)
  {
    SizeAtSound(s, i);
    var j := i + 4 + RunLen(s, i + 4, Space);
    UnitAtSlice(s, j, UnitLen(s, j));
  }

  /** The two numbers `ItemAt` captures are digit strings. */
  lemma ItemAtDigits(s: string, i: nat)
    requires i <= |s| && ItemAt(s, i).Some?
    ensures IsDigits(ItemAt(s, i).value.first) && IsDigits(ItemAt(s, i).value.second)
  {
    ItemAtShape(s, i);
    var n := RunLen(s, i + 17, Digit);
    RunAllIn(s, i + 17, Digit);
    RunAllIn(s, i + 21 + n, Digit);
    DigitsOfRun(s, i + 17, n);
    DigitsOfRun(s, i + 21 + n, RunLen(s, i + 21 + n, Digit));
  }

  /** A line where `ItemAt` matches contains "Downloading item". */
  lemma ItemAtContains(s: string, i: nat)
    requires i <= |s| && ItemAt(s, i).Some?
    ensures Contains(s, "Downloading item")
  {
    ItemAtShape(s, i);
    ContainsAt(s, "Downloading item", i);
  }

  /** What `Find(Frag, ·)` captures are two digit strings. */
  lemma FindFragSound(line: string)
    requires Find(Frag, line).Some?
    ensures IsDigits(Find(Frag, line).value.first) && IsDigits(Find(Frag, line).value.second)
  {
    var i := FoundFrag(line);
    FragAtDigits(line, i);
  }

  /** What `Find(Eta, ·)` captures is a clock. */
  lemma FindEtaSound(line: string)
    requires Find(Eta, line).Some?
    ensures IsClock(Find(Eta, line).value.first)
  {
    var i := FoundAt(Eta, line);
  }

  /** What `Find(Speed, ·)` captures is matched in full by `[~\d.]+[A-Za-z]+/s`. */
  lemma FindSpeedSound(line: string)
    requires Find(Speed, line).Some?
    ensures SpeedText(Find(Speed, line).value.first)
  {
    var i := FoundSpeed(line);
    SpeedAtText(line, i);
  }

  /** What `Find(Size, ·)` captures is matched in full by `[~\d.]+[A-Za-z]+`. */
  lemma FindSizeSound(line: string)
    requires Find(Size, line).Some?
    ensures NumberUnit(Find(Size, line).value.first)
  {
    var i := FoundSize(line);
    SizeAtText(line, i);
  }

  /** What `Find(Item, ·)` captures are two digit strings, on a line that
      contains "Downloading item". */
  lemma FindItemSound(line: string)
    requires Find(Item, line).Some?
    ensures IsDigits(Find(Item, line).value.first) && IsDigits(Find(Item, line).value.second)
    ensures Contains(line, "Downloading item")
  {
    var i := FoundItem(line);
    ItemAtDigits(line, i);
    ItemAtContains(line, i);
  }

  // ---------------------------------------------------------------------------
  // extract_download_details and the two status formatters.

  /** The playlist position remembered between lines (`item_number`, `total_items`). */
  datatype Counters = Counters(item: string, total: string)

  /** The position before any "Downloading item" line has been seen. */
  const Unknown := Counters("?", "?")

  /** Both counters are unknown, or both are digit strings. */
  predicate CountersOk(c: Counters)
  {
    (c.item == "?" && c.total == "?") || (IsDigits(c.item) && IsDigits(c.total))
  }

  /** Both counters are digit strings, the test under which the position is shown. */
  predicate PositionKnown(c: Counters)
  {
    IsDigits(c.item) && IsDigits(c.total)
  }

  lemma PlaceholderNotDigits()
    ensures !IsDigits("?")
  {
    assert "?"[0] == '?';
  }

  /** The seven values `extract_download_details` returns. */
  datatype Details = Details(fragment: string, fragments: string, eta: string,
                             speed: string, size: string, counters: Counters)

  function FirstOr(m: Option<Groups>, absent: string): string
  {
    if m.Some? then m.value.first else absent
  }

  function SecondOr(m: Option<Groups>, absent: string): string
  {
    if m.Some? then m.value.second else absent
  }

  /** One line's details; a pulled counter replaces the remembered one only
      when it is a digit string. */
  function Extract(line: string, c: Counters): Details
  {
    var frag := Find(Frag, line);
    var item := Find(Item, line);
    var pulledItem := FirstOr(item, "?");
    var pulledTotal := SecondOr(item, "?");
    Details(FirstOr(frag, "?"), SecondOr(frag, "?"),
            FirstOr(Find(Eta, line), "N/A"), FirstOr(Find(Speed, line), "N/A"),
            FirstOr(Find(Size, line), "N/A"),
            Counters(if IsDigits(pulledItem) then pulledItem else c.item,
                     if IsDigits(pulledTotal) then pulledTotal else c.total))
  }

  /** No captured text is a placeholder. */
  lemma PlaceholdersNotCaptured(t: string)
    ensures IsDigits(t) ==> t != "?"
    ensures IsClock(t) ==> t != "N/A"
    ensures SpeedText(t) ==> t != "N/A"
    ensures NumberUnit(t) ==> t != "N/A"
  {
    PlaceholderNotDigits();
    if NumberUnit(t) {
      var p :| 0 < p < |t| && NumberUnitSplit(t, p);
      assert InClass(t[0], NumberChar);
    }
  }

  /** The counters change exactly when the line has a "Downloading item i of n"
      match, and then become its two numbers. */
  lemma ExtractCounters(line: string, c: Counters)
    ensures Extract(line, c).counters
         == (match Find(Item, line) case Some(g) => Counters(g.first, g.second) case None => c)
  {
    PlaceholderNotDigits();
    if Find(Item, line).Some? { FindItemSound(line); }
  }

  /** The other fields are the leftmost match of their pattern, or the
      placeholder when there is none (no match can look like a placeholder). */
  lemma ExtractFields(line: string, c: Counters)
    ensures var d := Extract(line, c);
      && (d.fragment == "?" <==> Find(Frag, line).None?)
      && (d.fragments == "?" <==> Find(Frag, line).None?)
      && (d.eta == "N/A" <==> Find(Eta, line).None?)
      && (d.speed == "N/A" <==> Find(Speed, line).None?)
      && (d.size == "N/A" <==> Find(Size, line).None?)
  {
    if Find(Frag, line).Some? {
      FindFragSound(line);
      PlaceholdersNotCaptured(Find(Frag, line).value.first);
      PlaceholdersNotCaptured(Find(Frag, line).value.second);
    }
    if Find(Eta, line).Some? {
      FindEtaSound(line);
      PlaceholdersNotCaptured(Find(Eta, line).value.first);
    }
    if Find(Speed, line).Some? {
      FindSpeedSound(line);
      PlaceholdersNotCaptured(Find(Speed, line).value.first);
    }
    if Find(Size, line).Some? {
      FindSizeSound(line);
      PlaceholdersNotCaptured(Find(Size, line).value.first);
    }
  }

  /** The counters are always both unknown or both known. */
  lemma ExtractKeepsCountersOk(line: string, c: Counters)
    requires CountersOk(c)
    ensures CountersOk(Extract(line, c).counters)
  {
    ExtractCounters(line, c);
    if Find(Item, line).Some? { FindItemSound(line); }
  }

  /** `format_download_status` */
  function DownloadStatus(d: Details): string
  {
    "Downloading fragment " + d.fragment + "/" + d.fragments + " | ETA: " + d.eta + " at ~ " + d.speed + " | "
    + (if PositionKnown(d.counters)
       then "Video " + d.counters.item + " of " + d.counters.total + " size ~ " + d.size
       else "Video size ~ " + d.size)
  }

  /** `format_merging_status` */
  function MergingStatus(d: Details): string
  {
    if PositionKnown(d.counters)
    then "Merging Video and Audio files for video " + d.counters.item + " of " + d.counters.total + "."
    else "Merging Video and Audio files"
  }

  /** An unknown position never reaches the panel: the status reads as if no
      counters existed. */
  lemma StatusIgnoresUnknownPosition(d: Details)
    requires !PositionKnown(d.counters)
    ensures DownloadStatus(d) == DownloadStatus(d.(counters := Unknown))
    ensures MergingStatus(d) == "Merging Video and Audio files"
  {
    PlaceholderNotDigits();
  }

  /** A known position always reaches the panel, in both statuses. */
  lemma StatusShowsKnownPosition(d: Details)
    requires PositionKnown(d.counters)
    ensures Contains(DownloadStatus(d), "Video " + d.counters.item + " of " + d.counters.total)
    ensures Contains(MergingStatus(d), "video " + d.counters.item + " of " + d.counters.total)
  {
    var shown := "Video " + d.counters.item + " of " + d.counters.total;
    var head := "Downloading fragment " + d.fragment + "/" + d.fragments + " | ETA: " + d.eta + " at ~ " + d.speed + " | ";
    var tail := " size ~ " + d.size;
    assert DownloadStatus(d) == head + shown + tail;
    ContainsMiddle(head, shown, tail);
    var merged := "video " + d.counters.item + " of " + d.counters.total;
    assert MergingStatus(d) == "Merging Video and Audio files for " + merged + ".";
    ContainsMiddle("Merging Video and Audio files for ", merged, ".");
  }

  // ---------------------------------------------------------------------------
  // The loop over yt-dlp's output in suppressed mode.

  /** Lines that update the panel with the download status. */
  predicate IsProgressLine(line: string)
  {
    (Contains(line, "[download]") && Contains(line, "%") && Contains(line, "ETA"))
    || Contains(line, "Downloading item")
  }

  /** Lines that update the panel with the merging status. */
  predicate IsMergingLine(line: string)
  {
    Contains(line, "[Merger]") && Contains(line, "Merging")
  }

  /** The remembered position and the text on the panel. */
  datatype View = View(counters: Counters, panel: string)

  /** The text the panel starts each suppressed download with. */
  const FetchingPanel := "Fetching download information"

  /** One line of output: a progress line, then a merging line, each re-extract. */
  function Step(line: string, v: View): View
  {
    var v1 := if IsProgressLine(line)
      then var d := Extract(line, v.counters); View(d.counters, DownloadStatus(d))
      else v;
    if IsMergingLine(line)
    then var d := Extract(line, v1.counters); View(d.counters, MergingStatus(d))
    else v1
  }

  /** The view after reading all of `lines`. */
  function Display(lines: seq<string>, v: View): View
  {
    if lines == [] then v else Display(lines[1..], Step(lines[0], v))
  }

  /** The numbers of the last "Downloading item i of n" match in `lines`, if any. */
  function LastItem(lines: seq<string>): Option<Groups>
  {
    if lines == [] then None
    else match Find(Item, lines[|lines| - 1])
      case Some(g) => Some(g)
      case None => LastItem(lines[..|lines| - 1])
  }

  /** Every line with an item match is a progress line, so a line changes the
      counters exactly when it has that match. */
  lemma StepCounters(line: string, v: View)
    ensures Step(line, v).counters
         == (match Find(Item, line) case Some(g) => Counters(g.first, g.second) case None => v.counters)
  {
    ExtractCounters(line, v.counters);
    if Find(Item, line).Some? {
      FindItemSound(line);
      ExtractCounters(line, Extract(line, v.counters).counters);
    } else if IsProgressLine(line) {
      ExtractCounters(line, Extract(line, v.counters).counters);
    }
  }

  lemma {:induction false} DisplaySnoc(lines: seq<string>, line: string, v: View)
    ensures Display(lines + [line], v) == Step(line, Display(lines, v))
  {
    if lines == [] {
      assert [line][1..] == [];
    } else {
      assert (lines + [line])[1..] == lines[1..] + [line];
      DisplaySnoc(lines[1..], line, Step(lines[0], v));
    }
  }

  /** After any stream of output the remembered position is that of the last
      "Downloading item" line, or the one held before if there was none. */
  lemma {:induction false} DisplayCounters(lines: seq<string>, v: View)
    ensures Display(lines, v).counters
         == (match LastItem(lines) case Some(g) => Counters(g.first, g.second) case None => v.counters)
    decreases |lines|
  {
    if lines != [] {
      var init, last := lines[..|lines| - 1], lines[|lines| - 1];
      assert lines == init + [last];
      DisplaySnoc(init, last, v);
      DisplayCounters(init, v);
      StepCounters(last, Display(init, v));
    }
  }

  /** The counters stay both unknown or both known across a whole stream. */
  lemma {:induction false} DisplayKeepsCountersOk(lines: seq<string>, v: View)
    requires CountersOk(v.counters)
    ensures CountersOk(Display(lines, v).counters)
    decreases |lines|
  {
    if lines != [] {
      var line := lines[0];
      var v1 := if IsProgressLine(line)
        then var d := Extract(line, v.counters); View(d.counters, DownloadStatus(d))
        else v;
      ExtractKeepsCountersOk(line, v.counters);
      ExtractKeepsCountersOk(line, v1.counters);
      DisplayKeepsCountersOk(lines[1..], Step(line, v));
    }
  }
}
