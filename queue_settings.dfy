/** The options file of yt_queue: the header rule, the three `key=value`
    lines `save_config` writes and the line scan `load_config` does. */
module QueueSettings {
  import opened Wrappers
  import opened PyText
  import opened PyInt

  /** The header line `ensure_header` inserts. */
  const Header := "[yt-dlp]\n"

  /** The file needs a header: it has no lines, or its first line does not start with '['. */
  predicate NeedsHeader(lines: seq<string>)
  {
    lines == [] || !StartsWith(lines[0], "[")
  }

  /** `ensure_header` on the file's lines. */
  function EnsureHeader(lines: seq<string>): seq<string>
  {
    if NeedsHeader(lines) then [Header] + lines else lines
  }

  /** One line is added exactly when the header is missing; the old lines follow
      it unchanged and in order; afterwards the header is present, so a second
      application changes nothing. */
  lemma EnsureHeaderSpec(lines: seq<string>)
    ensures var r := EnsureHeader(lines);
      && |r| == |lines| + (if NeedsHeader(lines) then 1 else 0)
      && r[|r| - |lines|..] == lines
      && (NeedsHeader(lines) ==> r[0] == Header)
      && !NeedsHeader(r)
      && EnsureHeader(r) == r
  {
    var r := EnsureHeader(lines);
    if NeedsHeader(lines) {
      assert r[0][..1] == "[";
    }
  }

  /** `ensure_header` on the file's text: the file is rewritten only when the
      header is missing. */
  function EnsureHeaderText(text: string): string
  {
    if NeedsHeader(ReadLines(text)) then Concat(EnsureHeader(ReadLines(text))) else text
  }

  /** The three settings of yt_queue. */
  datatype Settings = Settings(downloadDirectory: string, ytDlpOptions: string, retryDelay: int)

  /** `t.split('=', 1)[1]`: the text after the first '='. */
  function AfterFirstEq(t: string): string
  {
    if t == [] then [] else if t[0] == '=' then t[1..] else AfterFirstEq(t[1..])
  }

  /** `line.strip().split('=', 1)[1]` */
  function FieldValue(line: string): string
  {
    AfterFirstEq(Strip(line))
  }

  /** The keys `load_config` recognises, as line prefixes. */
  const DirKey := "download_directory="
  const OptionsKey := "yt_dlp_options="
  const DelayKey := "retry_delay="

  /** One line of `load_config`; `None` is the `ValueError` that `int()`
      raises on a malformed delay, which ends the program. */
  function ApplyLine(line: string, st: Settings): Option<Settings>
  {
    if StartsWith(line, DirKey) then Some(st.(downloadDirectory := FieldValue(line)))
    else if StartsWith(line, OptionsKey) then Some(st.(ytDlpOptions := FieldValue(line)))
    else if StartsWith(line, DelayKey) then
      match ParseInt(FieldValue(line))
      case Some(n) => Some(st.(retryDelay := n))
      case None => None
    else Some(st)
  }

  /** The settings after a run of `load_config` over `lines`, and whether it
      got through them all. */
  datatype Loaded = Loaded(settings: Settings, ok: bool)

  function ApplyLines(lines: seq<string>, st: Settings): Loaded
  {
    if lines == [] then Loaded(st, true)
    else match ApplyLine(lines[0], st)
      case None => Loaded(st, false)
      case Some(st1) => ApplyLines(lines[1..], st1)
  }

  /** The value of the last line that starts with `key`, if any. */
  function LastValue(lines: seq<string>, key: string): Option<string>
  {
    if lines == [] then None
    else if StartsWith(lines[|lines| - 1], key) then Some(FieldValue(lines[|lines| - 1]))
    else LastValue(lines[..|lines| - 1], key)
  }

  /** Every delay line in `lines` holds a number. */
  predicate DelaysParse(lines: seq<string>)
  {
    forall k :: 0 <= k < |lines| && StartsWith(lines[k], DelayKey) ==> ParseInt(FieldValue(lines[k])).Some?
  }

  /** What a run leaves, stated against the last line for each key. */
  predicate LastWins(lines: seq<string>, st: Settings, r: Settings)
  {
    && r.downloadDirectory == (match LastValue(lines, DirKey) case Some(v) => v case None => st.downloadDirectory)
    && r.ytDlpOptions == (match LastValue(lines, OptionsKey) case Some(v) => v case None => st.ytDlpOptions)
    && (match LastValue(lines, DelayKey) case Some(v) => ParseInt(v) == Some(r.retryDelay) case None => r.retryDelay == st.retryDelay)
  }

  /** `ApplyLines` from index `i` on takes line `i` first. */
  lemma ApplyLinesFrom(lines: seq<string>, i: nat, st: Settings)
    requires i < |lines|
    ensures ApplyLines(lines[i..], st)
         == match ApplyLine(lines[i], st)
            case None => Loaded(st, false)
            case Some(st1) => ApplyLines(lines[i + 1..], st1)
  {
    assert lines[i..][1..] == lines[i + 1..];
  }

  lemma KeysExclusive(line: string)
    ensures !(StartsWith(line, DirKey) && StartsWith(line, OptionsKey))
    ensures !(StartsWith(line, DirKey) && StartsWith(line, DelayKey))
    ensures !(StartsWith(line, OptionsKey) && StartsWith(line, DelayKey))
  {
    if StartsWith(line, DirKey) { assert line[0] == DirKey[0]; }
    if StartsWith(line, OptionsKey) { assert line[0] == OptionsKey[0]; }
  }

  lemma {:induction false} ApplyLinesSnoc(lines: seq<string>, line: string, st: Settings)
    ensures ApplyLines(lines + [line], st)
         == (var r := ApplyLines(lines, st);
             if !r.ok then r
             else match ApplyLine(line, r.settings)
               case None => Loaded(r.settings, false)
               case Some(st1) => Loaded(st1, true))
    decreases |lines|
  {
    if lines == [] {
      assert [line][1..] == [];
    } else {
      assert (lines + [line])[1..] == lines[1..] + [line];
      match ApplyLine(lines[0], st)
      case None =>
      case Some(st1) => ApplyLinesSnoc(lines[1..], line, st1);
    }
  }

  lemma LastValueSnoc(lines: seq<string>, line: string, key: string)
    ensures LastValue(lines + [line], key)
         == if StartsWith(line, key) then Some(FieldValue(line)) else LastValue(lines, key)
  {
    assert (lines + [line])[..|lines|] == lines;
  }

  lemma DelaysParseSnoc(lines: seq<string>, line: string)
    ensures DelaysParse(lines + [line])
        <==> DelaysParse(lines) && (StartsWith(line, DelayKey) ==> ParseInt(FieldValue(line)).Some?)
  {
    var all := lines + [line];
    if DelaysParse(lines) && (StartsWith(line, DelayKey) ==> ParseInt(FieldValue(line)).Some?) {
      forall k | 0 <= k < |all| && StartsWith(all[k], DelayKey) ensures ParseInt(FieldValue(all[k])).Some? {
        if k < |lines| { assert all[k] == lines[k]; } else { assert all[k] == line; }
      }
    }
    if DelaysParse(all) {
      forall k | 0 <= k < |lines| && StartsWith(lines[k], DelayKey) ensures ParseInt(FieldValue(lines[k])).Some? {
        assert all[k] == lines[k];
      }
      assert all[|lines|] == line;
    }
  }

  /** One more line keeps `LastWins` when it is applied. */
  lemma LastWinsStep(lines: seq<string>, line: string, st: Settings, r: Settings, r1: Settings)
    requires LastWins(lines, st, r)
    requires ApplyLine(line, r) == Some(r1)
    ensures LastWins(lines + [line], st, r1)
  {
    LastValueSnoc(lines, line, DirKey);
    LastValueSnoc(lines, line, OptionsKey);
    LastValueSnoc(lines, line, DelayKey);
    KeysExclusive(line);
  }

  /** `load_config` gets through the file exactly when every delay line holds
      a number, and then each setting is the value of the last line with its
      key, or what it was before when there is none; all other lines,
      the header among them, have no effect. */
  lemma {:induction false} ApplyLinesSpec(lines: seq<string>, st: Settings)
    ensures ApplyLines(lines, st).ok <==> DelaysParse(lines)
    ensures ApplyLines(lines, st).ok ==> LastWins(lines, st, ApplyLines(lines, st).settings)
    decreases |lines|
  {
    if lines != [] {
      var init, line := lines[..|lines| - 1], lines[|lines| - 1];
      assert lines == init + [line];
      ApplyLinesSpec(init, st);
      ApplyLinesOkStep(init, line, st);
      ApplyLinesLastStep(init, line, st);
    }
  }

  lemma ApplyLinesOkStep(init: seq<string>, line: string, st: Settings)
    requires ApplyLines(init, st).ok <==> DelaysParse(init)
    ensures ApplyLines(init + [line], st).ok <==> DelaysParse(init + [line])
  {
    ApplyLinesSnoc(init, line, st);
    DelaysParseSnoc(init, line);
    KeysExclusive(line);
  }

  lemma ApplyLinesLastStep(init: seq<string>, line: string, st: Settings)
    requires ApplyLines(init, st).ok ==> LastWins(init, st, ApplyLines(init, st).settings)
    ensures ApplyLines(init + [line], st).ok ==> LastWins(init + [line], st, ApplyLines(init + [line], st).settings)
  {
    ApplyLinesSnoc(init, line, st);
    var r := ApplyLines(init, st);
    if r.ok {
      match ApplyLine(line, r.settings)
      case None =>
      case Some(r1) => LastWinsStep(init, line, st, r.settings, r1);
    }
  }

  /** The three lines `save_config` writes, each with its "\n". */
  function SavedLines(st: Settings): seq<string>
  {
    [DirKey + st.downloadDirectory + "\n", OptionsKey + st.ytDlpOptions + "\n",
     DelayKey + IntToString(st.retryDelay) + "\n"]
  }

  /** The text `save_config` writes. */
  function SaveConfigText(st: Settings): string
  {
    Concat(SavedLines(st))
  }

  /** A value that survives the round trip: one line, no whitespace at its end. */
  predicate StorableValue(v: string)
  {
    NoLineBreak(v) && (v == [] || !IsSpace(v[|v| - 1]))
  }

  lemma {:induction false} AfterFirstEqOfKey(key: string, v: string)
    requires forall i :: 0 <= i < |key| ==> key[i] != '='
    ensures AfterFirstEq(key + "=" + v) == v
    decreases |key|
  {
    if key == [] {
      assert ("=" + v)[1..] == v;
    } else {
      assert (key + "=" + v)[1..] == key[1..] + "=" + v;
      AfterFirstEqOfKey(key[1..], v);
    }
  }

  lemma KeyLineShape(key: string, v: string)
    requires key != [] && !IsSpace(key[0]) && NoLineBreak(key) && StorableValue(v)
    ensures var w := key + "=" + v; w != [] && Stripped(w) && NoLineBreak(w)
  {
    var w := key + "=" + v;
    assert w[0] == key[0];
    if v == [] {
      assert w[|w| - 1] == '=';
    } else {
      assert w[|w| - 1] == v[|v| - 1];
    }
    forall i | 0 <= i < |w| ensures !IsLineBreak(w[i]) {
      if i < |key| { assert w[i] == key[i]; }
      else if i > |key| { assert w[i] == v[i - |key| - 1]; }
    }
  }

  /** A saved `key=value` line is read back as that value. */
  lemma FieldValueOfLine(key: string, v: string)
    requires key != [] && !IsSpace(key[0]) && NoLineBreak(key) && StorableValue(v)
    requires forall i :: 0 <= i < |key| ==> key[i] != '='
    ensures NoLineBreak(key + "=" + v)
    ensures FieldValue(key + "=" + v + "\n") == v
  {
    KeyLineShape(key, v);
    StripTrailingBreak(key + "=" + v);
    AfterFirstEqOfKey(key, v);
  }

  lemma StorableIntText(n: int)
    ensures StorableValue(IntToString(n))
  {
    var t := IntToString(n);
    if n < 0 {
      assert t[1..] == NatToString(-n);
    }
  }

  /** The name part of a key: no '=', no line break, no leading space. */
  predicate NameShaped(name: string)
  {
    name != [] && !IsSpace(name[0]) && NoLineBreak(name)
    && forall i :: 0 <= i < |name| ==> name[i] != '='
  }

  /** A saved `name=value` line starts with its key and reads back as its value. */
  lemma KeyFieldValue(name: string, v: string)
    requires NameShaped(name) && StorableValue(v)
    ensures NoLineBreak(name + "=" + v)
    ensures StartsWith(name + "=" + v + "\n", name + "=")
    ensures FieldValue(name + "=" + v + "\n") == v
  {
    FieldValueOfLine(name, v);
    StartsWithConcat(name + "=", v, "\n");
  }

  lemma StartsWithConcat(a: string, b: string, c: string)
    ensures StartsWith(a + b + c, a)
  {
    assert (a + b + c)[..|a|] == a;
  }

  lemma DirKeyShaped()
    ensures NameShaped("download_directory") && DirKey == "download_directory" + "="
  {
  }

  lemma OptionsKeyShaped()
    ensures NameShaped("yt_dlp_options") && OptionsKey == "yt_dlp_options" + "="
  {
  }

  lemma DelayKeyShaped()
    ensures NameShaped("retry_delay") && DelayKey == "retry_delay" + "="
  {
  }

  lemma ReadSavedLines(st: Settings)
    requires StorableValue(st.downloadDirectory) && StorableValue(st.ytDlpOptions)
    ensures ReadLines(SaveConfigText(st)) == SavedLines(st)
  {
    StorableIntText(st.retryDelay);
    TerminatedLine(DirKey, st.downloadDirectory);
    TerminatedLine(OptionsKey, st.ytDlpOptions);
    TerminatedLine(DelayKey, IntToString(st.retryDelay));
    ReadBackLines(SavedLines(st));
  }

  lemma ApplyDirLine(v: string, st: Settings)
    requires StorableValue(v)
    ensures ApplyLine(DirKey + v + "\n", st) == Some(st.(downloadDirectory := v))
  {
    DirKeyShaped();
    KeyFieldValue("download_directory", v);
  }

  lemma ApplyOptionsLine(v: string, st: Settings)
    requires StorableValue(v)
    ensures ApplyLine(OptionsKey + v + "\n", st) == Some(st.(ytDlpOptions := v))
  {
    OptionsKeyShaped();
    KeyFieldValue("yt_dlp_options", v);
    KeysExclusive(OptionsKey + v + "\n");
  }

  lemma ApplyDelayLine(n: int, st: Settings)
    ensures ApplyLine(DelayKey + IntToString(n) + "\n", st) == Some(st.(retryDelay := n))
  {
    StorableIntText(n);
    DelayKeyShaped();
    KeyFieldValue("retry_delay", IntToString(n));
    KeysExclusive(DelayKey + IntToString(n) + "\n");
    ParseIntOfIntToString(n);
  }

  lemma ApplySavedLines(st: Settings, before: Settings)
    requires StorableValue(st.downloadDirectory) && StorableValue(st.ytDlpOptions)
    ensures ApplyLines(SavedLines(st), before) == Loaded(st, true)
  {
    var lines := SavedLines(st);
    var s1 := before.(downloadDirectory := st.downloadDirectory);
    var s2 := s1.(ytDlpOptions := st.ytDlpOptions);
    ApplyDirLine(st.downloadDirectory, before);
    ApplyOptionsLine(st.ytDlpOptions, s1);
    ApplyDelayLine(st.retryDelay, s2);
    calc {
      ApplyLines(lines, before);
      ApplyLines(lines[1..], s1);
      ApplyLines(lines[1..][1..], s2);
      ApplyLines(lines[1..][1..][1..], st);
      { assert lines[1..][1..][1..] == []; }
      Loaded(st, true);
    }
  }

  /** The header line is not a setting. */
  lemma HeaderIgnored(st: Settings)
    ensures ApplyLine(Header, st) == Some(st)
  {
    var h := Header;
    assert h[0] == '[';
    assert !StartsWith(h, DirKey) && !StartsWith(h, OptionsKey) && !StartsWith(h, DelayKey);
  }

  lemma ReadHeaderAndSavedLines(st: Settings)
    requires StorableValue(st.downloadDirectory) && StorableValue(st.ytDlpOptions)
    ensures ReadLines(Header + SaveConfigText(st)) == [Header] + SavedLines(st)
  {
    var lines := [Header] + SavedLines(st);
    StorableIntText(st.retryDelay);
    TerminatedLine("[yt-dlp]", "");
    assert "[yt-dlp]" + "" + "\n" == Header;
    TerminatedLine(DirKey, st.downloadDirectory);
    TerminatedLine(OptionsKey, st.ytDlpOptions);
    TerminatedLine(DelayKey, IntToString(st.retryDelay));
    assert lines[1..] == SavedLines(st);
    ReadBackLines(lines);
  }

  /** The three lines `save_config` writes read back, with or without the
      header in front, as exactly the saved settings, whatever was loaded before. */
  lemma LoadSaveConfig(st: Settings, before: Settings, withHeader: bool)
    requires StorableValue(st.downloadDirectory) && StorableValue(st.ytDlpOptions)
    ensures var text := (if withHeader then Header else "") + SaveConfigText(st);
      ApplyLines(ReadLines(text), before) == Loaded(st, true)
  {
    ApplySavedLines(st, before);
    if withHeader {
      ReadHeaderAndSavedLines(st);
      HeaderIgnored(before);
      var lines := [Header] + SavedLines(st);
      assert lines[1..] == SavedLines(st);
    } else {
      ReadSavedLines(st);
      assert "" + SaveConfigText(st) == SaveConfigText(st);
    }
  }

  /** `save_config` never writes the header itself, so the `ensure_header`
      that follows it always rewrites the file with the header in front. */
  lemma EnsureHeaderAfterSave(st: Settings)
    requires StorableValue(st.downloadDirectory) && StorableValue(st.ytDlpOptions)
    ensures EnsureHeaderText(SaveConfigText(st)) == Header + SaveConfigText(st)
  {
    var lines := SavedLines(st);
    ReadSavedLines(st);
    assert lines[0][0] == 'd';
    assert NeedsHeader(lines);
    assert Concat([Header] + lines) == Header + Concat(lines) by {
      assert ([Header] + lines)[1..] == lines;
    }
  }
}
