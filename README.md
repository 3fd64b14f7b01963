# yt-dlp-sc in Dafny

yt-dlp-sc keeps a first-in, first-out list of video links in a queue file and
hands them one at a time to the external downloader yt-dlp. The repository
holds two versions of the tool:

- `yt-dlp-sc.py` checks each link before downloading it: it must be a YouTube
  link and answer a ping. It can download through a staging folder, and it
  stops at the first failed download. In suppressed mode it condenses
  yt-dlp's output into a one-line progress panel.
- `yt_queue.py` is the older, smaller version. It puts a failed link back at
  the end of the queue and tries it again later.

This project models the deterministic core of both tools. Every call into
the outside world becomes a parameter:

- the ping is a predicate `ping: string -> bool`;
- the k-th run of yt-dlp is `run(k)`, which gives its exit status, the
  lines it printed and the names left in the staging folder;
- in `yt_queue.py` the exit status of the k-th command is `succeeds(k)`;
- directory checks arrive as booleans;
- files are `Option<string>` fields holding their text (`None` when a file
  is missing);
- the value `~` expands to is the field `home`.

Modules:

- `PyText` (pytext.dfy): the Python string built-ins the tool uses.
  - `str.strip` and `str.split()` over Python's whitespace set.
  - Line-by-line file reading with universal newlines.
  - `str.lower` on ASCII letters, `in` on strings.
  - `os.path.join` and `os.path.expanduser` for `~` and `~/…`.
- `PyInt` (pyint.dfy): `int(text)` and `str(n)` in base 10, including a
  sign, single underscores between digits, and the whitespace `int()`
  skips around the number. That is Python's whitespace without the four
  separators U+001C to U+001F, which `int()` rejects.
- `QueueText` (queue_text.dfy): the queue file format both versions share.
  - A link per line, each followed by `"\n"`.
  - Loading strips every line and skips blank ones.
  - Removal by index, guarded by a bounds check.
- `Command` (command.dfy): the argument vector given to yt-dlp.
- `Progress` (progress.dfy): the five regular-expression extractors of
  `extract_download_details`.
  - Each is written as a hand matcher and proved equivalent to the
    pattern's own reading.
  - Also the playlist counters, which persist from line to line, and the
    two status texts.
- `Relocation` (relocation.dfy): `move_files_to_final_directory` as the
  list of filesystem actions it performs for a listing of the staging
  folder.
- `ScSettings` (sc_settings.dfy): the yes/no answers, the eight-line
  options file, `check_header` and `prepend_line_to_file`.
- `QueueSettings` (queue_settings.dfy): the `key=value` options file of
  `yt_queue.py` and `ensure_header`.
- `YtDlpSc` (yt_dlp_sc.dfy): the download loop of `yt-dlp-sc.py` as a
  specification function `Drain`, and its globals as class `App`. The
  class's methods are proved against `Drain`.
- `YtQueue` (yt_queue.dfy): the download loop of `yt_queue.py` as a
  specification function `Rotate`, and its globals as class `App`.

Behaviours the model reproduces as written, stated as lemmas:

- In `yt-dlp-sc.py` with staging on, every relocation empties the queue
  file. A later failed download then leaves the file empty while links are
  still queued. See `YtDlpSc.QueueFileEmptiedBeforeBreak`.
- In `yt-dlp-sc.py`, staging under the default folder
  `~/Downloads/yt-dlp-sc`, a relocation that finds files also removes the
  folder yt-dlp runs in. The next downloadable link then raises an
  exception nothing catches, and the session crashes with that link still
  queued and the queue file already empty. A session that reaches the loop
  without its working folder crashes at its first downloadable link. See
  `YtDlpSc.DefaultStagingCrashes` and `YtDlpSc.DrainWithoutFolder`.
- In debug mode with staging on, a staging folder that already exists ends
  the session before the loop starts. See `YtDlpSc.ProceedsSpec`.
- `yt_queue.py` rewrites the queue file only after a failure. After a
  failure followed by successes, the file still lists links that were
  already downloaded. See `YtQueue.StaleQueueFile`.
- `yt_queue.py` accepts a negative `retry_delay` from the options file,
  although `setdelay` refuses one. The first failed download then saves the
  queue and crashes in `time.sleep`. See `YtQueue.RotateCrash` and
  `YtQueue.NegativeDelayCrashes`.
- The "Downloading..." panel is built but never displayed. The suppressed
  panel starts at "Fetching download information" and changes only on a
  progress or merging line.

## Model

| member | source | states |
|---|---|---|
| PyText.TrimLeft | yt-dlp-sc.py:203 | `lstrip()` keeps a suffix of the text that does not start with whitespace, and everything it drops is whitespace |
| PyText.TrimRight | yt-dlp-sc.py:203 | `rstrip()` keeps a prefix of the text that does not end with whitespace |
| PyText.TrimRightDropsSpace | yt-dlp-sc.py:203 | everything `rstrip()` drops is whitespace |
| PyText.StripSpec | yt-dlp-sc.py:203 | `strip()` keeps exactly the middle of the text: what it drops at either end is whitespace, and its result is stripped at both ends |
| PyText.StripStripped | yt-dlp-sc.py:203 | a text with no whitespace at either end is its own strip |
| PyText.StripTrailingBreak | yt-dlp-sc.py:330 | a link written with its `"\n"` strips back to the link, when the link has no whitespace at its ends |
| PyText.RunLenStops | yt-dlp-sc.py:460-464 | a greedy run of a character class ends at the end of the text or at a character outside the class |
| PyText.RunLenSpan | yt-dlp-sc.py:460-464 | every character of a greedy run belongs to the class |
| PyText.RunLenExact | yt-dlp-sc.py:460-464 | a run known to stop at a given index has exactly that length |
| PyText.ContainsAt | yt-dlp-sc.py:557 | `t in s` holds whenever `t` occurs at some index of `s` |
| PyText.ContainsMiddle | yt-dlp-sc.py:487 | a text contains each piece it is built from |
| PyText.SplitFromWords | yt-dlp-sc.py:579 | every word `split()` returns is non-empty and holds no whitespace |
| PyText.SplitKeepsContent | yt-dlp-sc.py:579 | `split()` loses only whitespace: its words put together are the text's non-whitespace characters in order |
| PyText.SplitFromWord | yt-dlp-sc.py:579 | a word that ends at whitespace or at the end of the text is the next word `split()` returns |
| PyText.SplitJoinSpaced | yt_queue.py:217 | splitting words joined by single spaces gives back exactly those words |
| PyText.ReadLines | yt-dlp-sc.py:202 | reading a file gives non-empty lines, and each line but the last ends with `"\n"` |
| PyText.ReadLinesCons | yt-dlp-sc.py:330 | a line written with its `"\n"` is read back as the first line, followed by the rest of the file's lines |
| PyText.ConcatReadLines | yt-dlp-sc.py:115-123 | writing back the lines a file was read as, and reading them again, gives the same lines |
| PyText.ReadBackLines | yt-dlp-sc.py:315-324 | lines that each end in a single `"\n"` are read back as themselves |
| PyText.LowerEqualsWord | yt-dlp-sc.py:215 | comparing `s.lower()` with a lower-case word is comparing letter by letter ignoring case, in both directions |
| PyText.PathJoinRelative | yt-dlp-sc.py:653-655 | joining a relative name to a folder path puts the name directly under that folder |
| PyInt.NatToString | yt_queue.py:66 | `str(n)` of a non-negative number is a non-empty digit string |
| PyInt.DecimalValueOfNatToString | yt_queue.py:66 | the digits `str(n)` writes have the value `n` |
| PyInt.ParseIntOfDigits | yt_queue.py:142 | `int()` reads a digit string as its decimal value |
| PyInt.ParseIntOfPadded | yt_queue.py:142 | digits with `int()`'s whitespace on either side read as the digits' value |
| PyInt.ParseIntRejectsSeparator | yt_queue.py:58 | text that starts with one of the separators U+001C to U+001F makes `int()` fail (`ValueError`) |
| PyInt.ParseIntOfNegative | yt_queue.py:142-145 | `int()` reads a minus sign followed by digits as the negated value |
| PyInt.ParseIntOfIntToString | yt_queue.py:58 | `int(str(n)) == n` for every integer whose decimal form is within CPython's digit limit (see Left out), so a saved delay loads back unchanged |
| PyInt.ParseIntNeedsADigit | yt_queue.py:149-150 | text without a digit makes `int()` fail (`ValueError`) |
| QueueText.LoadSaveQueue | yt-dlp-sc.py:199-203 | loading the text `save_queue` wrote gives back the same list when every link is non-empty, unpadded and on one line (also yt_queue.py:69-80) |
| QueueText.LoadLinkLine | yt-dlp-sc.py:327-330 | one saved link loads back as that link, in front of whatever the rest of the file loads as |
| QueueText.ReadLinesShape | yt_queue.py:72-73 | each line the loop reads is non-empty and holds at most one line break, at its end |
| QueueText.StripOfLine | yt_queue.py:73 | a stripped line holds no line break and no whitespace at its ends |
| QueueText.LoadedLinksStorable | yt-dlp-sc.py:203 | whatever the file holds, every loaded link is non-empty, stripped and free of line breaks (blank lines are dropped) |
| QueueText.LoadSaveLoad | yt_queue.py:69-80 | saving a loaded queue and loading it again gives the same queue |
| QueueText.RemoveAtSpec | yt-dlp-sc.py:426-432 | an index in range removes exactly that link and keeps the others in order (length one less; the removed link plus the rest is the old multiset); any other index changes nothing (also yt_queue.py:121-127) |
| QueueText.SaveQueueAppend | yt-dlp-sc.py:412-415 | saving a queue with one more link at its tail appends that link's line to the text |
| Command.BuildShape | yt-dlp-sc.py:577-585 | the command starts with `yt-dlp` and ends with the link; positions 1-2 are `--download-archive` and `<dir>/downloaded_videos.txt` exactly in staging mode; the tokens between are `split()` of the options, none empty or holding whitespace, and together they are the options' non-whitespace text |
| Command.BuildPassesWords | yt-dlp-sc.py:579 | options given as space-separated words reach yt-dlp as exactly those words |
| Progress.Search | yt-dlp-sc.py:460-464 | `re.search` reports a match at the leftmost index that has one, and no index before it matches |
| Progress.FragAtSpec | yt-dlp-sc.py:460 | the fragment matcher captures `g` at `i` exactly when `\(frag (\d+)/(\d+)\)` matches there with groups `g` |
| Progress.EtaAtSpec | yt-dlp-sc.py:461 | the ETA matcher captures `g` at `i` exactly when `ETA (\d{2}:\d{2})` matches there with group `g` |
| Progress.UnitLenSound | yt-dlp-sc.py:463 | what the size-text scanner measures is a `[~\d.]+[A-Za-z]+` text that the letters end |
| Progress.UnitLenCovers | yt-dlp-sc.py:463 | wherever a `[~\d.]+[A-Za-z]+` text occurs, the scanner covers it, and measures exactly it when its letters cannot be extended |
| Progress.SpeedLenSound | yt-dlp-sc.py:462 | what the speed-text scanner measures is a `[~\d.]+[A-Za-z]+/s` text |
| Progress.SpeedLenExact | yt-dlp-sc.py:462 | wherever a `[~\d.]+[A-Za-z]+/s` text occurs, the scanner measures exactly it |
| Progress.SpeedAtSound | yt-dlp-sc.py:462 | the speed matcher captures a `[~\d.]+[A-Za-z]+/s` text that follows `at` and at least one whitespace character |
| Progress.SpeedAtComplete | yt-dlp-sc.py:462 | wherever `at\s+([~\d.]+[A-Za-z]+/s)` matches, the speed matcher reports that same group |
| Progress.SizeAtSound | yt-dlp-sc.py:463 | the size matcher captures a `[~\d.]+[A-Za-z]+` text that follows `of ~` and at least one whitespace character, with greedy letters |
| Progress.SizeAtLongest | yt-dlp-sc.py:463 | wherever `of ~\s+([~\d.]+[A-Za-z]+)` matches, the size matcher matches too, and captures the longest such group |
| Progress.ItemAtSound | yt-dlp-sc.py:464 | the item matcher's groups are a match of `Downloading item (\d+) of (\d+)` whose second number is greedy |
| Progress.ItemAtLongest | yt-dlp-sc.py:464 | wherever the item pattern matches, the item matcher reports the same first number and the longest second number |
| Progress.ItemAtContains | yt-dlp-sc.py:464 | a line where the item pattern matches contains "Downloading item" |
| Progress.FindFragSound | yt-dlp-sc.py:460 | both fragment numbers found are digit strings |
| Progress.FindEtaSound | yt-dlp-sc.py:461 | the ETA found is a `dd:dd` clock |
| Progress.FindSpeedSound | yt-dlp-sc.py:462 | the speed found is a full `[~\d.]+[A-Za-z]+/s` text |
| Progress.FindSizeSound | yt-dlp-sc.py:463 | the size found is a full `[~\d.]+[A-Za-z]+` text |
| Progress.FindItemSound | yt-dlp-sc.py:464 | both item numbers found are digit strings, on a line that contains "Downloading item" |
| Progress.PlaceholdersNotCaptured | yt-dlp-sc.py:467-471 | no captured value can be taken for the placeholders "?" or "N/A" |
| Progress.ExtractFields | yt-dlp-sc.py:466-471 | each field is its pattern's leftmost match; a fragment field is "?" exactly when there is no fragment match, and ETA, speed and size are "N/A" exactly when their pattern is absent |
| Progress.ExtractCounters | yt-dlp-sc.py:472-478 | `item_number` and `total_items` become the two numbers of a "Downloading item N of M" match and otherwise keep their previous values |
| Progress.ExtractKeepsCountersOk | yt-dlp-sc.py:453-478 | starting from "?"/"?", the two counters are always both unknown or both digit strings |
| Progress.StatusIgnoresUnknownPosition | yt-dlp-sc.py:482-502 | when a counter is not a digit string, both status texts leave out the position ("Video size ~ …", "Merging Video and Audio files") |
| Progress.StatusShowsKnownPosition | yt-dlp-sc.py:486-498 | when both counters are digit strings, the download status contains "Video N of M" and the merging status contains "video N of M" |
| Progress.StepCounters | yt-dlp-sc.py:606-614 | one output line changes the counters exactly when it has an item match, because every such line is a progress line |
| Progress.DisplaySnoc | yt-dlp-sc.py:606 | the view after one more line is one more step on the view so far |
| Progress.DisplayCounters | yt-dlp-sc.py:606-614 | after any stream of output, the counters are those of the stream's last item match, or the counters it started with |
| Progress.DisplayKeepsCountersOk | yt-dlp-sc.py:606-614 | the counters stay both unknown or both known across a whole stream |
| Relocation.HandleAllSpec | yt-dlp-sc.py:649-658 | each listed name gets one action, in listing order |
| Relocation.RelocationSpec | yt-dlp-sc.py:641-661 | an empty listing does nothing. Otherwise, the action for a name deletes it from the staging folder exactly when it mentions `downloaded_videos.txt`, and otherwise moves it to the same name in the final folder. The queue is cleared after the last name. The staging folder is removed last, exactly when its path contains the default one |
| Relocation.ArchiveNeverMoved | yt-dlp-sc.py:650-658 | no action moves a name that mentions the archive file, and every move goes from the staging folder to the final folder |
| Relocation.Relocate | yt-dlp-sc.py:641-661 | the loop over the listing performs exactly the actions of the relocation function |
| ScSettings.ParseYesNoSpec | yt-dlp-sc.py:213-226 | an answer is yes exactly when it is "y" or "yes" ignoring case, and no exactly when it is "n" or "no" ignoring case |
| ScSettings.PrependHeaderPasses | yt-dlp-sc.py:101-123 | after the header line is prepended, `check_header` passes and the old lines follow it unchanged |
| ScSettings.PrependHeaderToFile | yt-dlp-sc.py:113-123 | the rewritten file reads back as the header line followed by the old file's lines, and `check_header` passes on it |
| ScSettings.ConfigLinesTerminated | yt-dlp-sc.py:315-324 | each of the eight lines `save_config` writes ends in a single `"\n"`, when no value holds a line break |
| ScSettings.ConfigTextReadsBack | yt-dlp-sc.py:315-324 | a saved options file reads back as its eight lines, the first being the header, so `check_header` passes on it |
| QueueSettings.EnsureHeaderSpec | yt_queue.py:34-46 | a header is inserted exactly when there are no lines or the first does not start with '['; the old lines follow unchanged and in order; a second application changes nothing |
| QueueSettings.ApplyLinesSpec | yt_queue.py:48-58 | `load_config` gets through the file exactly when every `retry_delay=` line holds a number as `int()` reads it, so not one padded with U+001C to U+001F; then each of the three keys takes the value after the first '=' of its last line, and keeps its old value when no line has it |
| QueueSettings.ApplyLinesFrom | yt_queue.py:52-58 | the loop handles line `i` before the rest |
| QueueSettings.ApplyLinesSnoc | yt_queue.py:52-58 | applying the lines with one more line at the end is applying that line to the result |
| QueueSettings.AfterFirstEqOfKey | yt_queue.py:54 | `split('=', 1)[1]` of `key=value` is the value when the key holds no '=' |
| QueueSettings.FieldValueOfLine | yt_queue.py:54 | a saved `key=value` line is read back as its value |
| QueueSettings.HeaderIgnored | yt_queue.py:52-58 | the header line changes no setting |
| QueueSettings.ApplyDirLine | yt_queue.py:53-54 | a saved `download_directory=` line sets only the download directory |
| QueueSettings.ApplyOptionsLine | yt_queue.py:55-56 | a saved `yt_dlp_options=` line sets only the options |
| QueueSettings.ApplyDelayLine | yt_queue.py:57-58 | a saved `retry_delay=` line sets only the delay, to the saved number |
| QueueSettings.ReadSavedLines | yt_queue.py:62-66 | the text `save_config` writes reads back as its three lines |
| QueueSettings.LoadSaveConfig | yt_queue.py:48-66 | the three lines `save_config` writes, with or without the header in front, load back as exactly the saved settings, whatever was loaded before |
| QueueSettings.EnsureHeaderAfterSave | yt_queue.py:62-67 | `save_config` never writes the header, so the `ensure_header` after it always puts the header in front |
| YtDlpSc.ProceedsSpec | yt-dlp-sc.py:521-550 | outside debug mode, or with staging off, every session reaches the loop. In debug mode with staging on, only a missing default staging folder under a writable ~/Downloads lets it start |
| YtDlpSc.StartsWithoutFolder | yt-dlp-sc.py:529-545 | outside debug mode, a missing staging folder that is not the default one, or the default one under an unwritable ~/Downloads, lets the session start with the folder still missing |
| YtDlpSc.Visit | yt-dlp-sc.py:552-638 | a round that ends the session (a break or a crash) leaves the queue untouched; any other round pops exactly the head |
| YtDlpSc.VisitSpec | yt-dlp-sc.py:552-661 | A round runs yt-dlp only for a YouTube link that answers the ping while the working folder exists, with that link's command. Such a link meets a missing folder exactly when the session crashes. It breaks exactly when the folder exists, the output is not suppressed and the run failed. A round that ends the session leaves the file and the actions alone. Every other round leaves the file listing the queue, or emptied by a relocation. The folder only disappears through the relocation's final `rmdir` under the default path. Without staging nothing is relocated. The counters stay consistent |
| YtDlpSc.VisitCommands | yt-dlp-sc.py:576-596 | a round adds the head's command exactly when the head is downloadable and the working folder exists; a crash adds none |
| YtDlpSc.DrainShape | yt-dlp-sc.py:552-634 | the loop drops links only from the front of the queue, runs at most one command per dropped link (plus the failed one), and keeps the commands run before |
| YtDlpSc.DrainStops | yt-dlp-sc.py:552-634 | the loop ends in one of three ways: the queue is empty; it broke without suppression, with the failed link still at the head and its command the last one run; or it crashed on a downloadable head because the working folder is missing, with that head still queued |
| YtDlpSc.DrainKeepsFolder | yt-dlp-sc.py:636-661 | the working folder never comes back once gone, and it can only go when staging under the default path |
| YtDlpSc.DrainWithoutFolder | yt-dlp-sc.py:552-627 | without its working folder a session runs no command, relocates nothing and never breaks; it crashes exactly when some queued link is downloadable |
| YtDlpSc.SuppressedDrains | yt-dlp-sc.py:590-623 | in suppressed mode the loop never breaks: it ends with an empty queue or in a crash. When the folder exists and is never removed (no staging, or staging outside the default path) it empties the queue, whatever yt-dlp's exit status |
| YtDlpSc.DrainCommands | yt-dlp-sc.py:557-588 | every command run is the command for a queued link that contains "www.youtube.com/" and answers the ping |
| YtDlpSc.DrainCommandLink | yt-dlp-sc.py:557-588 | names the queued, downloadable link whose command is a given command run |
| YtDlpSc.DrainFile | yt-dlp-sc.py:552-638 | through the whole loop the queue file lists the queue, or (staging only) has been emptied by a relocation |
| YtDlpSc.DrainNoActions | yt-dlp-sc.py:636-638 | without staging the loop performs no filesystem action |
| YtDlpSc.DrainWithoutStaging | yt-dlp-sc.py:552-638 | without staging the queue file always lists the queue and nothing is relocated |
| YtDlpSc.DrainCountersOk | yt-dlp-sc.py:453-454 | the playlist counters stay both unknown or both known through a whole session |
| YtDlpSc.QueueFileEmptiedBeforeBreak | yt-dlp-sc.py:636-659 | staging outside the default path, a successful download that leaves files, followed by a failed one, breaks with the second link queued but the queue file empty |
| YtDlpSc.DefaultStagingCrashes | yt-dlp-sc.py:594-661 | staging under the default path, a first download that leaves files removes the working folder, and the second downloadable link crashes the session with that link queued, the file empty and one command run |
| YtDlpSc.App.constructor | yt-dlp-sc.py:29-38 | the globals as the module sets them before the options are read |
| YtDlpSc.App.LoadQueue | yt-dlp-sc.py:199-210 | the queue becomes the file's loaded links; a missing file is created empty and the queue stays |
| YtDlpSc.App.SaveQueue | yt-dlp-sc.py:327-330 | the queue file becomes the saved text of the queue |
| YtDlpSc.App.AddToQueue | yt-dlp-sc.py:412-415 | the link goes at the tail and the queue is saved |
| YtDlpSc.App.RemoveFromQueue | yt-dlp-sc.py:426-432 | an index in range removes that link, returns it and saves; any other index changes neither the queue nor the file |
| YtDlpSc.App.ClearQueue | yt-dlp-sc.py:333-338 | the queue file is emptied and the queue in memory is kept |
| YtDlpSc.App.SaveConfig | yt-dlp-sc.py:315-324 | the options file becomes the eight lines of the current settings, directories expanded |
| YtDlpSc.App.SetTempDirectoryOption | yt-dlp-sc.py:213-226 | a yes or no answer sets the staging flag and saves; anything else changes nothing; the answer is returned |
| YtDlpSc.App.SetDebug | yt-dlp-sc.py:229-240 | a yes or no answer sets the debug flag and saves; anything else changes nothing |
| YtDlpSc.App.SetPretty | yt-dlp-sc.py:243-254 | a yes or no answer sets the pretty flag and saves; anything else changes nothing |
| YtDlpSc.App.SetSuppressOption | yt-dlp-sc.py:257-270 | a yes or no answer sets the suppression flag and saves; anything else changes nothing; the answer is returned |
| YtDlpSc.App.SetTempDirectory | yt-dlp-sc.py:273-287 | a writable folder different from the download folder becomes the expanded staging folder and is saved; otherwise nothing changes |
| YtDlpSc.App.SetDownloadDirectory | yt-dlp-sc.py:290-305 | a writable folder different from the staging folder becomes the expanded download folder and is saved; otherwise nothing changes |
| YtDlpSc.App.SetYtDlpOptions | yt-dlp-sc.py:308-312 | the whole options text is kept as given and saved |
| YtDlpSc.App.ExtractDownloadDetails | yt-dlp-sc.py:456-480 | returns the line's details and stores their counters in the globals |
| YtDlpSc.App.FormatDownloadStatus | yt-dlp-sc.py:482-491 | the download status of the line's details, with the counters updated |
| YtDlpSc.App.FormatMergingStatus | yt-dlp-sc.py:493-502 | the merging status of the line's details, with the counters updated |
| YtDlpSc.App.ShowProgress | yt-dlp-sc.py:590-614 | the panel and counters after a run's output are those of the display function, starting from "Fetching download information" |
| YtDlpSc.App.MoveFilesToFinalDirectory | yt-dlp-sc.py:641-661 | performs the relocation's actions for the listing, into the expanded download folder; the queue file is emptied unless the listing is empty |
| YtDlpSc.App.DownloadQueue | yt-dlp-sc.py:505-638 | the loop is reached exactly when the session may proceed, and otherwise nothing changes (queue, file, counters and panel); the loop starts with the working folder present when it existed or was created, and its final queue, file, counters, panel, commands, actions, folder and ending are those of the specification function `Drain` |
| YtDlpSc.App.VisitHead | yt-dlp-sc.py:552-575 | one round on the head: a link that is not a YouTube link, or does not answer, is popped and the queue saved; the new state is one step of `Visit` |
| YtDlpSc.App.DownloadHead | yt-dlp-sc.py:576-638 | the download part of a round: a missing working folder crashes the session; otherwise the command is run, the head is popped (or the loop breaks), and staged files are relocated, as `Visit` says |
| YtDlpSc.App.RunHead | yt-dlp-sc.py:590-634 | with the working folder present: the command is run, then the head is popped and the queue saved (suppressed, or a success) or the loop breaks, as `Visit` says |
| YtDlpSc.App.RelocateStaged | yt-dlp-sc.py:636-638 | with staging, the listing is relocated, the file emptied unless the listing is empty, and the folder gone exactly when the relocation removed it, as `AfterDownload` says |
| YtQueue.CommandFor | yt_queue.py:165 | the command is exactly `yt-dlp`, then the whitespace-split options, then the link |
| YtQueue.StepSpec | yt_queue.py:162-173 | a round pops the head and runs its command; on success the link is finished and the file is untouched; on failure the link goes back at the tail and the queue is saved; the program crashes exactly when a command fails and the delay is negative; the queue plus the finished links keep their multiset |
| YtQueue.RotateKeepsLinks | yt_queue.py:160-173 | no link is lost or duplicated: the queue and the finished links together are always the starting links |
| YtQueue.RotateRounds | yt_queue.py:160-173 | every round runs one command for a link queued at the start; the loop stops with links left only when the rounds run out or the program has crashed, so unless the wait crashes it, it never gives up on a link |
| YtQueue.RotateCrash | yt_queue.py:168-172 | the program crashes only in the wait after a failed command and only with a negative delay, with the rotated queue already saved; with a delay that is not negative it never crashes |
| YtQueue.NegativeDelayCrashes | yt_queue.py:168-172 | with a negative delay, a first failed command ends the program after one command, with the failed link at the tail of the saved queue |
| YtQueue.RotateAllSucceed | yt_queue.py:162-167 | when every command succeeds, the queue empties, the links finish in queue order and the file is never written |
| YtQueue.RotateFileOnlyOnFailure | yt_queue.py:168-171 | the queue file is written only after a failure |
| YtQueue.ListsTailStep | yt_queue.py:168-171 | a round keeps the file listing some links followed by the queue |
| YtQueue.RotateFileListsTail | yt_queue.py:160-173 | once the file lists some links followed by the queue, it does so for the rest of the loop |
| YtQueue.RotateAfterFailure | yt_queue.py:168-171 | after a failure the file lists the queue's tail for the rest of the loop |
| YtQueue.StaleQueueFile | yt_queue.py:160-173 | a first failure followed by two successes empties the queue, but the file still lists both links |
| YtQueue.App.constructor | yt_queue.py:29-32 | the globals as the module sets them: the working directory, no options, a 15-minute delay, an empty queue |
| YtQueue.App.EnsureHeader | yt_queue.py:34-46 | the options file gets the header in front exactly when its first line does not start with '[' |
| YtQueue.App.LoadConfig | yt_queue.py:48-58 | the loop over the file's lines leaves the settings, and the flag for a malformed delay, that the line-by-line function gives |
| YtQueue.App.SaveConfig | yt_queue.py:62-66 | the options file becomes the three `key=value` lines |
| YtQueue.App.LoadQueue | yt_queue.py:69-75 | the queue becomes the file's loaded links; a missing file leaves the queue as it is |
| YtQueue.App.SaveQueue | yt_queue.py:77-80 | the queue file becomes the saved text of the queue |
| YtQueue.App.ClearQueue | yt_queue.py:83-85 | the queue file is emptied |
| YtQueue.App.AddToQueue | yt_queue.py:102-106 | the link goes at the tail and the queue is saved |
| YtQueue.App.RemoveFromQueue | yt_queue.py:121-127 | an index in range removes that link, returns it and saves; any other index changes nothing |
| YtQueue.App.SetDownloadDirectory | yt_queue.py:129-137 | an existing directory is stored and saved; the header check runs either way |
| YtQueue.App.SetRetryDelay | yt_queue.py:139-151 | a non-negative number becomes the delay and is saved. A negative number changes nothing, not even the header. Text that is not a number only gets the header check |
| YtQueue.App.SetYtDlpOptions | yt_queue.py:153-158 | the whole options text is kept as given, saved, and the header ensured |
| YtQueue.App.DownloadQueue | yt_queue.py:160-173 | the loop's final queue, file, commands, finished links and crash flag are those of the specification function `Rotate` |

## Left out

- Running yt-dlp, the HTTP ping and `time.sleep` are not modelled. They are
  replaced by the parameters `run`, `succeeds` and `ping`. yt-dlp's working
  folder (`cwd`) is not part of a command. In `YtDlpSc` only, whether it
  exists is tracked through the session, and starting yt-dlp in a missing
  folder is the `Crashed` ending. A missing `yt-dlp` program is not
  modelled in either file.
- `YtDlpSc.App.DownloadQueue` asks the ping the same question twice for a
  link that does not answer. It assumes the ping gives the same answer both
  times. A ping that changed its mind would leave the head in place with a
  stale `link_responsive`; that case is not modelled.
- Filesystem effects are not modelled: `os.access`, `os.path.isdir`,
  `os.makedirs`, `shutil.move`, `os.remove` and `os.rmdir`. Each check is a
  boolean parameter, and relocation is only its list of actions. Of their
  results only one is kept: whether the working folder exists.
- `YtDlpSc.FolderAtStart`: a missing staging folder that only contains the
  default path, such as a sub-folder of it, is not created by
  `os.makedirs`, which creates the default folder itself. The model starts
  that session without its folder. It does not model the `FileExistsError`
  that `os.makedirs` raises when the default folder already exists.
- `clear_queue` in `yt-dlp-sc.py` also deletes everything in the staging
  folder and the archive file. Those deletions are not modelled; the
  queue-file truncation is.
- `load_options`, `write_default_options`, `create_config`,
  `create_yt_dlp_sc_folder`, `is_same_as_default` and `is_file_blank`
  (yt-dlp-sc.py:48-196) are not modelled. They rely on `configparser`,
  which is not part of this model.
- The options bootstrap at yt_queue.py:11-26 is not modelled, because its
  values are overwritten at line 29. The yt_queue options file is always
  present, so the "file not found" branch of `load_config` does not arise.
- In yt_queue.py, `save_config` calls `ensure_header` while its own write
  handle is still open (yt_queue.py:67). That depends on buffering and is
  not modelled. The setters' own call to `ensure_header` after saving is
  modelled.
- Before the options are read, `yt-dlp-sc.py` holds `use_temp_folder`,
  `suppress_output`, `debug` and `pretty` as strings (`""` and `"True"`).
  The model uses the booleans they stand for.
- `YtQueue.App.DownloadQueue` and `YtQueue.Rotate` run for at most `fuel`
  rounds. The source loop can rotate forever while a link keeps failing;
  the lemmas therefore speak of what holds after any number of rounds.
- `YtQueue.App.DownloadQueue` assumes that yt-dlp can be started in
  `download_directory`. When that folder or the `yt-dlp` program is
  missing, `subprocess.run` raises `FileNotFoundError`, which nothing
  catches (yt_queue.py:167); the model has no such ending.
- `YtQueue.App.DownloadQueue` models the `ValueError` that `time.sleep`
  raises for a negative delay (the crash flag), but not the
  `OverflowError` it raises for a delay too large for the platform's
  clock; such a delay is modelled as an ordinary wait.
- `PyInt.ParseInt` and `PyInt.IntToString` have no length limit. CPython
  refuses a decimal conversion of more than 4300 digits
  (`sys.int_info.default_max_str_digits`) with `ValueError`, in both
  `int()` and `str()`; the model does not.
- `PyText.Lower` lowercases ASCII letters only, and `PyText.IsDigit` accepts
  ASCII digits only. Other Unicode cases and digits are not modelled.
- `PyText.ExpandUser` handles only `~` and `~/…`. The `~user` form is left
  as written.
- A path that `expanduser` has already expanded is not expanded again.
- Progress.StatusShowsKnownPosition and Progress.StatusIgnoresUnknownPosition
  together give the "Video N of M iff both counters are digit strings"
  property. The unknown-position half is stated as the status being the one
  for unknown counters, not as the absence of the substring.
- Rich panels, colours, help and version text, `show_settings`,
  `show_queue` and the `main` argument dispatch of both files are not
  modelled. The dispatch is only where the setters get their arguments.
