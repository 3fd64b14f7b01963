/** The settings text of yt-dlp-sc: the yes/no answers the setters accept,
    the eight-line options file `save_config` writes, the header check and
    the header prepend. */
module ScSettings {
  import opened Wrappers
  import opened PyText

  /** `option.lower()` is "y" or "yes" (true), "n" or "no" (false), or
      anything else (no answer). */
  function ParseYesNo(option: string): Option<bool>
  {
    var o := Lower(option);
    if o == "y" || o == "yes" then Some(true)
    else if o == "n" || o == "no" then Some(false)
    else None
  }

  /** The answers are case-insensitive: a yes is "y" or "yes" in any case, a
      no is "n" or "no" in any case, and nothing else is an answer. */
  lemma ParseYesNoSpec(option: string)
    ensures ParseYesNo(option) == Some(true)
        <==> EqualsIgnoringCase(option, "y") || EqualsIgnoringCase(option, "yes")
    ensures ParseYesNo(option) == Some(false)
        <==> EqualsIgnoringCase(option, "n") || EqualsIgnoringCase(option, "no")
  {
    LowerEqualsWord(option, "y");
    LowerEqualsWord(option, "yes");
    LowerEqualsWord(option, "n");
    LowerEqualsWord(option, "no");
  }

  /** `f"{b}"` for a Python bool. */
  function BoolText(b: bool): string
  {
    if b then "True" else "False"
  }

  /** The header line of the options file. */
  const Header := "[yt-dlp]"

  /** The seven settings `save_config` writes, in its order. */
  datatype Options = Options(downloadDirectory: string, tempDownloadDirectory: string,
                             ytDlpOptions: string, useTempFolder: bool,
                             suppressOutput: bool, debug: bool, pretty: bool)

  /** The lines `save_config` writes (directories already expanded). */
  function ConfigLines(o: Options): seq<string>
  {
    [ Header + "\n",
      "download_directory=" + o.downloadDirectory + "\n",
      "temp_download_directory=" + o.tempDownloadDirectory + "\n",
      "yt_dlp_options=" + o.ytDlpOptions + "\n",
      "use_temp_folder=" + BoolText(o.useTempFolder) + "\n",
      "suppress_output=" + BoolText(o.suppressOutput) + "\n",
      "debug=" + BoolText(o.debug) + "\n",
      "pretty=" + BoolText(o.pretty) + "\n" ]
  }

  /** The text of the options file after `save_config`. */
  function ConfigText(o: Options): string
  {
    Concat(ConfigLines(o))
  }

  /** `check_header` on the file's lines: some line strips to "[yt-dlp]". */
  predicate CheckHeader(lines: seq<string>)
  {
    exists k :: 0 <= k < |lines| && Strip(lines[k]) == Header
  }

  /** `check_header` on the file: a missing file reads as no lines. */
  predicate CheckHeaderFile(file: Option<string>)
  {
    file.Some? && CheckHeader(ReadLines(file.value))
  }

  /** `prepend_line_to_file` on the file's lines. */
  function PrependLine(lines: seq<string>, line: string): seq<string>
  {
    [line + "\n"] + lines
  }

  /** `prepend_line_to_file` on the file's text: the lines read back, with
      the new one in front, written out again. */
  function PrependLineToText(text: string, line: string): string
  {
    Concat(PrependLine(ReadLines(text), line))
  }

  /** After the header is prepended `check_header` passes, and the old lines follow
      the header unchanged and in order. */
  lemma PrependHeaderPasses(lines: seq<string>)
    ensures CheckHeader(PrependLine(lines, Header))
    ensures PrependLine(lines, Header)[1..] == lines
  {
    StripTrailingBreak(Header);
    assert Strip(PrependLine(lines, Header)[0]) == Header;
  }

  /** The same at the level of files: the rewritten file reads back as the
      header line followed by the old file's lines. */
  lemma PrependHeaderToFile(text: string)
    ensures ReadLines(PrependLineToText(text, Header)) == PrependLine(ReadLines(text), Header)
    ensures CheckHeaderFile(Some(PrependLineToText(text, Header)))
  {
    PrependedReadsBack(text);
    PrependHeaderPasses(ReadLines(text));
  }

  lemma PrependedReadsBack(text: string)
    ensures ReadLines(PrependLineToText(text, Header)) == PrependLine(ReadLines(text), Header)
  {
    ConcatReadLines(text);
    ReadLinesCons(Header, Concat(ReadLines(text)));
  }

  lemma TextLineTerminated(key: string, value: string)
    requires NoLineBreak(key) && NoLineBreak(value)
    ensures Terminated(key + value + "\n")
  {
    TerminatedLine(key, value);
  }

  lemma HeaderLineTerminated(o: Options)
    ensures Terminated(ConfigLines(o)[0])
  {
    TerminatedLine(Header, "");
    assert Header + "" + "\n" == Header + "\n";
  }

  lemma DirectoryLineTerminated(o: Options)
    requires NoLineBreak(o.downloadDirectory)
    ensures Terminated(ConfigLines(o)[1])
  {
    TextLineTerminated("download_directory=", o.downloadDirectory);
  }

  lemma TempLineTerminated(o: Options)
    requires NoLineBreak(o.tempDownloadDirectory)
    ensures Terminated(ConfigLines(o)[2])
  {
    TextLineTerminated("temp_download_directory=", o.tempDownloadDirectory);
  }

  lemma OptionsLineTerminated(o: Options)
    requires NoLineBreak(o.ytDlpOptions)
    ensures Terminated(ConfigLines(o)[3])
  {
    TextLineTerminated("yt_dlp_options=", o.ytDlpOptions);
  }

  lemma FlagLineTerminated(key: string, b: bool)
    requires NoLineBreak(key)
    ensures Terminated(key + BoolText(b) + "\n")
  {
    var t := BoolText(b);
    assert NoLineBreak(t) by {
      if b { assert t == "True"; } else { assert t == "False"; }
    }
    TerminatedLine(key, t);
  }

  lemma UseTempFolderLineTerminated(o: Options)
    ensures Terminated(ConfigLines(o)[4])
  {
    FlagLineTerminated("use_temp_folder=", o.useTempFolder);
  }

  lemma SuppressOutputLineTerminated(o: Options)
    ensures Terminated(ConfigLines(o)[5])
  {
    FlagLineTerminated("suppress_output=", o.suppressOutput);
  }

  lemma DebugLineTerminated(o: Options)
    ensures Terminated(ConfigLines(o)[6])
  {
    FlagLineTerminated("debug=", o.debug);
  }

  lemma PrettyLineTerminated(o: Options)
    ensures Terminated(ConfigLines(o)[7])
  {
    FlagLineTerminated("pretty=", o.pretty);
  }

  lemma ConfigLinesTerminated(o: Options)
    requires NoLineBreak(o.downloadDirectory) && NoLineBreak(o.tempDownloadDirectory)
    requires NoLineBreak(o.ytDlpOptions)
    ensures forall k :: 0 <= k < |ConfigLines(o)| ==> Terminated(ConfigLines(o)[k])
  {
    HeaderLineTerminated(o);
    DirectoryLineTerminated(o);
    TempLineTerminated(o);
    OptionsLineTerminated(o);
    UseTempFolderLineTerminated(o);
    SuppressOutputLineTerminated(o);
    DebugLineTerminated(o);
    PrettyLineTerminated(o);
  }

  /** A saved options file reads back as its eight lines, the first of which is
      the header, so the header check passes on it. */
  lemma ConfigTextReadsBack(o: Options)
    requires NoLineBreak(o.downloadDirectory) && NoLineBreak(o.tempDownloadDirectory)
    requires NoLineBreak(o.ytDlpOptions)
    ensures ReadLines(ConfigText(o)) == ConfigLines(o)
    ensures CheckHeaderFile(Some(ConfigText(o)))
  {
    ConfigTextLines(o);
    StripTrailingBreak(Header);
    assert Strip(ConfigLines(o)[0]) == Header;
  }

  lemma ConfigTextLines(o: Options)
    requires NoLineBreak(o.downloadDirectory) && NoLineBreak(o.tempDownloadDirectory)
    requires NoLineBreak(o.ytDlpOptions)
    ensures ReadLines(ConfigText(o)) == ConfigLines(o)
  {
    ConfigLinesTerminated(o);
    ReadBackLines(ConfigLines(o));
  }

}
