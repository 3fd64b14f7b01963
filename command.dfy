/** The argument vector handed to yt-dlp for one link. */
module Command {
  import opened PyText

  /** The archive (ledger) file yt-dlp keeps in the staging folder. */
  const ArchiveName: string := "downloaded_videos.txt"

  /** `f"{directory}/downloaded_videos.txt"` */
  function ArchivePath(directory: string): string
  {
    directory + "/" + ArchiveName
  }

  /** The archive arguments, present only when the staging folder is in use. */
  function ArchiveArgs(useArchive: bool, directory: string): seq<string>
  {
    if useArchive then ["--download-archive", ArchivePath(directory)] else []
  }

  /** `["yt-dlp"]`, the archive arguments when staging, the options string split
      on whitespace, then the link. */
  function Build(useArchive: bool, directory: string, options: string, link: string): seq<string>
  {
    ["yt-dlp"] + ArchiveArgs(useArchive, directory) + Split(options) + [link]
  }

  /** The vector starts with the program and ends with the link; the archive
      arguments fill positions 1 and 2 exactly in staging mode; everything
      in between is the options' words, none of them empty or holding
      whitespace, and together they are the options' non-whitespace text. */
  lemma BuildShape(useArchive: bool, directory: string, options: string, link: string)
    ensures var cmd := Build(useArchive, directory, options, link);
      var k := if useArchive then 3 else 1;
      && |cmd| == k + |Split(options)| + 1
      && cmd[0] == "yt-dlp" && cmd[|cmd| - 1] == link
      && (useArchive ==> cmd[1] == "--download-archive" && cmd[2] == directory + "/downloaded_videos.txt")
      && cmd[k..|cmd| - 1] == Split(options)
      && (forall i :: k <= i < |cmd| - 1 ==> cmd[i] != [] && NoSpace(cmd[i]))
      && Concat(cmd[k..|cmd| - 1]) == NonSpace(options)
  {
    var cmd := Build(useArchive, directory, options, link);
    var k := if useArchive then 3 else 1;
    var words := Split(options);
    BuildLayout(useArchive, directory, options, link);
    SplitFromWords(options, 0);
    SplitKeepsContent(options);
    forall i | k <= i < |cmd| - 1 ensures cmd[i] != [] && NoSpace(cmd[i]) {
      assert cmd[i] == words[i - k];
    }
  }

  lemma BuildLayout(useArchive: bool, directory: string, options: string, link: string)
    ensures var cmd := Build(useArchive, directory, options, link);
      var k := if useArchive then 3 else 1;
      && |cmd| == k + |Split(options)| + 1
      && cmd[0] == "yt-dlp" && cmd[|cmd| - 1] == link
      && (useArchive ==> cmd[1] == "--download-archive" && cmd[2] == directory + "/downloaded_videos.txt")
      && cmd[k..|cmd| - 1] == Split(options)
      && (forall i :: k <= i < |cmd| - 1 ==> cmd[i] == Split(options)[i - k])
  {
    var cmd := Build(useArchive, directory, options, link);
    var k := if useArchive then 3 else 1;
    assert cmd[k..|cmd| - 1] == Split(options);
  }

  /** Options given as space-separated words reach yt-dlp as exactly those words. */
  lemma BuildPassesWords(useArchive: bool, directory: string, words: seq<string>, link: string)
    requires forall i :: 0 <= i < |words| ==> words[i] != [] && NoSpace(words[i])
    ensures Build(useArchive, directory, JoinSpaced(words), link)
         == ["yt-dlp"] + ArchiveArgs(useArchive, directory) + words + [link]
  {
    SplitJoinSpaced(words);
  }
}
