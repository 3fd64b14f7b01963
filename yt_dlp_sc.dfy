/** yt-dlp-sc: the queue keeper that checks each link, runs yt-dlp on it,
    optionally through a staging folder, and stops at the first failed
    download. */
module YtDlpSc {
  import opened Wrappers
  import opened PyText
  import opened QueueText
  import opened ScSettings
  import opened Progress
  import opened Relocation
  import Command

  /** The text a link must contain to be downloaded. */
  const YouTubeMark := "www.youtube.com/"

  /** The default staging folder, before expansion. */
  const DefaultTemp := "~/Downloads/yt-dlp-sc"

  /** What one run of yt-dlp gives back: whether it exited with status 0,
      the lines it printed, and the names in the staging folder afterwards. */
  datatype ToolRun = ToolRun(succeeded: bool, output: seq<string>, staged: seq<string>)

  /** What `download_queue` fixes before its loop: whether it stages and
      whether it suppresses the tool's output, the options, the folder the
      tool runs in (the expanded staging folder when staging, the expanded
      download folder otherwise), the expanded download folder and the
      expanded default staging folder. */
  datatype Setup = Setup(useTemp: bool, suppress: bool, options: string, workDir: string,
                         finalDir: string, defaultTemp: string)

  /** How a session ends: it is still running (and so, once the loop is
      over, ran out of links), it broke off after a failed download, or the
      tool could not be started because the folder it runs in is missing,
      which raises an exception nothing catches. */
  datatype Ending = Running | Broke | Crashed

  /** What the loop has done so far: the queue, the queue file, the progress
      view, the commands run, the filesystem actions of the relocations,
      whether the folder the tool runs in exists, and how the loop ended. */
  datatype Session = Session(queue: seq<string>, queueFile: Option<string>, view: View,
                             commands: seq<seq<string>>, actions: seq<Action>,
                             workDirExists: bool, ending: Ending)

  /** Whether `download_queue` gets to its loop. With staging on, a staging
      folder that contains the default path and does not exist yet is created
      when ~/Downloads is writable; in debug mode an unwritable ~/Downloads,
      or any other staging folder, ends the session before it starts. */
  predicate Proceeds(useTemp: bool, debug: bool, workDir: string, defaultTemp: string,
                     workDirExists: bool, downloadsWritable: bool)
  {
    if !useTemp then true
    else if Contains(workDir, defaultTemp) && !workDirExists then downloadsWritable || !debug
    else !debug
  }

  /** Outside debug mode every session starts; in debug mode with staging on,
      only one whose staging folder is the default one, still missing, under
      a writable ~/Downloads. So an existing staging folder stops a debug
      session. */
  lemma ProceedsSpec(useTemp: bool, debug: bool, workDir: string, defaultTemp: string,
                     workDirExists: bool, downloadsWritable: bool)
    ensures Proceeds(useTemp, debug, workDir, defaultTemp, workDirExists, downloadsWritable)
        <==> !useTemp || !debug || (Contains(workDir, defaultTemp) && !workDirExists && downloadsWritable)
  {
  }

  /** Whether the folder the tool runs in exists when the loop starts: it
      existed already, or it is the default staging folder itself, which the
      checks before the loop create under a writable ~/Downloads. */
  predicate FolderAtStart(useTemp: bool, workDir: string, defaultTemp: string,
                          workDirExists: bool, downloadsWritable: bool)
  {
    || workDirExists
    || (useTemp && downloadsWritable && (workDir == defaultTemp || workDir == defaultTemp + "/"))
  }

  /** A session that starts outside debug mode without a working folder:
      staging into a missing folder that is not the default one, or into the
      default one under an unwritable ~/Downloads, reaches the loop with the
      folder still missing. */
  lemma StartsWithoutFolder(workDir: string, defaultTemp: string, downloadsWritable: bool)
    requires !Contains(workDir, defaultTemp) || !downloadsWritable
    ensures Proceeds(true, false, workDir, defaultTemp, false, downloadsWritable)
    ensures !FolderAtStart(true, workDir, defaultTemp, false, downloadsWritable)
  {
    if workDir == defaultTemp || workDir == defaultTemp + "/" {
      ContainsAt(workDir, defaultTemp, 0);
    }
  }

  /** Whether relocating the listing `staged` removes the working folder:
      a listing that is not empty, under the default staging path. */
  predicate RemovesFolder(cfg: Setup, staged: seq<string>)
  {
    cfg.useTemp && staged != [] && Contains(cfg.workDir, cfg.defaultTemp)
  }

  /** The relocation after a download that did not break the loop: with
      staging on, the staging folder's listing is relocated, and a listing
      that was not empty empties the queue file and, under the default path,
      removes the folder. */
  function AfterDownload(cfg: Setup, out: ToolRun, s: Session): (n: Session)
  {
    if !cfg.useTemp then s
    else
      s.(actions := s.actions + Relocation.Relocation(cfg.workDir, cfg.finalDir, cfg.defaultTemp, out.staged),
         queueFile := if out.staged == [] then s.queueFile else Some(""),
         workDirExists := s.workDirExists && !RemovesFolder(cfg, out.staged))
  }

  /** One round of the loop on the head of the queue; `ping` answers the
      responsiveness check and `run(k)` is the k-th run of yt-dlp. */
  function Visit(cfg: Setup, ping: string -> bool, run: nat -> ToolRun, s: Session): (n: Session)
    requires s.queue != [] && s.ending == Running
    ensures n.ending != Running ==> n.queue == s.queue
    ensures n.ending == Running ==> n.queue == s.queue[1..]
  {
    var link := s.queue[0];
    var rest := s.queue[1..];
    var popped := s.(queue := rest, queueFile := Some(SaveQueue(rest)));
    if !Contains(link, YouTubeMark) || !ping(link) then popped
    else if !s.workDirExists then
      s.(view := if cfg.suppress then View(s.view.counters, FetchingPanel) else s.view, ending := Crashed)
    else
      var out := run(|s.commands|);
      var commands := s.commands + [Command.Build(cfg.useTemp, cfg.workDir, cfg.options, link)];
      if cfg.suppress then
        AfterDownload(cfg, out, popped.(commands := commands,
                                        view := Display(out.output, View(s.view.counters, FetchingPanel))))
      else if out.succeeded then AfterDownload(cfg, out, popped.(commands := commands))
      else s.(commands := commands, ending := Broke)
  }

  /** The loop of `download_queue`: rounds until the queue is empty or a
      round ends the session. */
  function Drain(cfg: Setup, ping: string -> bool, run: nat -> ToolRun, s: Session): Session
    decreases |s.queue| + (if s.ending == Running then 1 else 0)
  {
    if s.queue == [] || s.ending != Running then s else Drain(cfg, ping, run, Visit(cfg, ping, run, s))
  }

  /** The loop's start: nothing run yet. */
  function Start(queue: seq<string>, queueFile: Option<string>, counters: Counters, workDirExists: bool): Session
  {
    Session(queue, queueFile, View(counters, FetchingPanel), [], [], workDirExists, Running)
  }

  /** A link the loop hands to yt-dlp: a YouTube link that answers the ping. */
  predicate Downloadable(ping: string -> bool, link: string)
  {
    Contains(link, YouTubeMark) && ping(link)
  }

  /** The queue file either lists the queue or, after a relocation while
      staging, is empty. */
  predicate FileTracks(cfg: Setup, file: Option<string>, queue: seq<string>)
  {
    file == Some(SaveQueue(queue)) || (cfg.useTemp && file == Some(""))
  }

  /** One round runs yt-dlp only for a downloadable head while the working
      folder exists, and with that head's command; a downloadable head meets
      a missing folder exactly when the session crashes; it breaks only
      without suppression, after a failed run; a round that ends the session
      leaves the queue file alone; any other round ends with the queue saved
      or, while staging, the file emptied by a relocation; the folder only
      disappears by the relocation's last action, and without staging
      nothing is relocated; the position counters stay consistent. */
  lemma VisitSpec(cfg: Setup, ping: string -> bool, run: nat -> ToolRun, s: Session)
    requires s.queue != [] && s.ending == Running
    ensures var n := Visit(cfg, ping, run, s); var link := s.queue[0];
      && (if Downloadable(ping, link) && s.workDirExists
          then n.commands == s.commands + [Command.Build(cfg.useTemp, cfg.workDir, cfg.options, link)]
          else n.commands == s.commands)
      && (n.ending == Crashed <==> Downloadable(ping, link) && !s.workDirExists)
      && (n.ending == Broke <==> Downloadable(ping, link) && s.workDirExists && !cfg.suppress && !run(|s.commands|).succeeded)
      && (n.ending != Running ==> n.queueFile == s.queueFile && n.actions == s.actions)
      && (n.ending == Running ==> FileTracks(cfg, n.queueFile, n.queue))
      && (n.workDirExists ==> s.workDirExists)
      && (s.workDirExists && !n.workDirExists ==>
            |n.actions| > |s.actions| && n.actions[|n.actions| - 1] == RemoveDir(cfg.workDir)
            && RemovesFolder(cfg, run(|s.commands|).staged))
      && (!cfg.useTemp ==> n.actions == s.actions && n.workDirExists == s.workDirExists)
      && (CountersOk(s.view.counters) ==> CountersOk(n.view.counters))
  {
    var n := Visit(cfg, ping, run, s);
    if Downloadable(ping, s.queue[0]) && s.workDirExists && cfg.suppress {
      if CountersOk(s.view.counters) {
        DisplayKeepsCountersOk(run(|s.commands|).output, View(s.view.counters, FetchingPanel));
      }
    }
    if s.workDirExists && !n.workDirExists {
      var out := run(|s.commands|);
      RelocationSpec(cfg.workDir, cfg.finalDir, cfg.defaultTemp, out.staged);
    }
  }

  /** The commands of one round: the head's command exactly when the head
      is downloadable and the folder exists, and only a break adds a command
      without dropping the head. */
  lemma VisitCommands(cfg: Setup, ping: string -> bool, run: nat -> ToolRun, s: Session)
    requires s.queue != [] && s.ending == Running
    ensures var n := Visit(cfg, ping, run, s); var link := s.queue[0];
      && (if Downloadable(ping, link) && s.workDirExists
          then n.commands == s.commands + [Command.Build(cfg.useTemp, cfg.workDir, cfg.options, link)]
          else n.commands == s.commands)
      && (n.ending == Crashed ==> n.commands == s.commands)
  {
  }

  /** The loop only ever drops links from the front of the queue, runs at
      most one command per link, and keeps what was run before. */
  lemma DrainShape(cfg: Setup, ping: string -> bool, run: nat -> ToolRun, s: Session)
    requires s.ending == Running
    ensures var e := Drain(cfg, ping, run, s);
      && |e.queue| <= |s.queue| && e.queue == s.queue[|s.queue| - |e.queue|..]
      && |s.commands| <= |e.commands| <= |s.commands| + (|s.queue| - |e.queue|) + (if e.ending == Broke then 1 else 0)
      && e.commands[..|s.commands|] == s.commands
  {
    DrainQueueShape(cfg, ping, run, s);
    DrainCommandCount(cfg, ping, run, s);
  }

  lemma {:induction false} DrainQueueShape(cfg: Setup, ping: string -> bool, run: nat -> ToolRun, s: Session)
    requires s.ending == Running
    ensures var e := Drain(cfg, ping, run, s);
      |e.queue| <= |s.queue| && e.queue == s.queue[|s.queue| - |e.queue|..]
    decreases |s.queue|
  {
    if s.queue != [] {
      var n := Visit(cfg, ping, run, s);
      if n.ending == Running {
        DrainQueueShape(cfg, ping, run, n);
        var e := Drain(cfg, ping, run, n);
        assert e.queue == n.queue[|n.queue| - |e.queue|..];
        assert n.queue == s.queue[1..];
      } else {
        assert s.queue[0..] == s.queue;
      }
    }
  }

  lemma {:induction false} DrainCommandCount(cfg: Setup, ping: string -> bool, run: nat -> ToolRun, s: Session)
    requires s.ending == Running
    ensures var e := Drain(cfg, ping, run, s);
      && |s.commands| <= |e.commands| <= |s.commands| + (|s.queue| - |e.queue|) + (if e.ending == Broke then 1 else 0)
      && e.commands[..|s.commands|] == s.commands
    decreases |s.queue|
  {
    if s.queue != [] {
      var n := Visit(cfg, ping, run, s);
      VisitCommands(cfg, ping, run, s);
      assert |s.commands| <= |n.commands| <= |s.commands| + 1 && n.commands[..|s.commands|] == s.commands;
      if n.ending == Running {
        DrainCommandCount(cfg, ping, run, n);
        var e := Drain(cfg, ping, run, n);
        assert e.commands[..|s.commands|] == e.commands[..|n.commands|][..|s.commands|];
      } else {
        assert |n.commands| == |s.commands| + 1 ==> n.ending == Broke;
      }
    }
  }

  /** The loop ends in one of three ways: the queue is empty; it broke off
      without suppression right after the head's command failed, with that
      head still first in the queue; or it crashed on a downloadable head
      because the folder the tool runs in is missing, with that head still
      first in the queue. */
  lemma {:induction false} DrainStops(cfg: Setup, ping: string -> bool, run: nat -> ToolRun, s: Session)
    requires s.ending == Running
    ensures var e := Drain(cfg, ping, run, s);
      || (e.queue == [] && e.ending == Running)
      || (&& e.ending == Broke && !cfg.suppress && e.queue != [] && |e.commands| > 0
          && e.workDirExists && Downloadable(ping, e.queue[0])
          && e.commands[|e.commands| - 1] == Command.Build(cfg.useTemp, cfg.workDir, cfg.options, e.queue[0])
          && !run(|e.commands| - 1).succeeded)
      || (e.ending == Crashed && e.queue != [] && !e.workDirExists && Downloadable(ping, e.queue[0]))
    decreases |s.queue|
  {
    if s.queue != [] {
      var n := Visit(cfg, ping, run, s);
      VisitSpec(cfg, ping, run, s);
      if n.ending == Running {
        DrainStops(cfg, ping, run, n);
      }
    }
  }

  /** The working folder never comes back once it is gone, and it only goes
      when a relocation under the default staging path removes it. */
  lemma {:induction false} DrainKeepsFolder(cfg: Setup, ping: string -> bool, run: nat -> ToolRun, s: Session)
    requires s.ending == Running
    ensures var e := Drain(cfg, ping, run, s);
      && (e.workDirExists ==> s.workDirExists)
      && (!(cfg.useTemp && Contains(cfg.workDir, cfg.defaultTemp)) ==> e.workDirExists == s.workDirExists)
    decreases |s.queue|
  {
    if s.queue != [] {
      var n := Visit(cfg, ping, run, s);
      VisitSpec(cfg, ping, run, s);
      if n.ending == Running {
        DrainKeepsFolder(cfg, ping, run, n);
      }
    }
  }

  /** A session whose working folder is missing runs no command, relocates
      nothing and never breaks off: it drops the links that are not
      downloadable and crashes at the first one that is. */
  lemma {:induction false} DrainWithoutFolder(cfg: Setup, ping: string -> bool, run: nat -> ToolRun, s: Session)
    requires s.ending == Running && !s.workDirExists
    ensures var e := Drain(cfg, ping, run, s);
      && e.commands == s.commands && e.actions == s.actions && e.ending != Broke
      && (e.ending == Crashed <==> exists i :: 0 <= i < |s.queue| && Downloadable(ping, s.queue[i]))
    decreases |s.queue|
  {
    if s.queue != [] {
      var n := Visit(cfg, ping, run, s);
      VisitSpec(cfg, ping, run, s);
      if n.ending == Running {
        DrainWithoutFolder(cfg, ping, run, n);
        assert n.queue == s.queue[1..];
        if exists i :: 0 <= i < |s.queue| && Downloadable(ping, s.queue[i]) {
          var i :| 0 <= i < |s.queue| && Downloadable(ping, s.queue[i]);
          assert i > 0 && n.queue[i - 1] == s.queue[i];
        }
      }
    }
  }

  /** With the output suppressed the loop never breaks off: it ends with an
      empty queue or in a crash. When the folder exists and is never removed
      (no staging, or staging outside the default path), every link leaves
      the queue, whatever yt-dlp's exit status. */
  lemma SuppressedDrains(cfg: Setup, ping: string -> bool, run: nat -> ToolRun, s: Session)
    requires cfg.suppress && s.ending == Running
    ensures var e := Drain(cfg, ping, run, s);
      && e.ending != Broke
      && (e.ending == Running <==> e.queue == [])
      && (s.workDirExists && !(cfg.useTemp && Contains(cfg.workDir, cfg.defaultTemp)) ==>
            e.queue == [] && e.ending == Running)
  {
    DrainStops(cfg, ping, run, s);
    DrainKeepsFolder(cfg, ping, run, s);
  }

  /** `c` is the command for a downloadable link of `queue`. */
  predicate CommandForQueued(cfg: Setup, ping: string -> bool, queue: seq<string>, c: seq<string>)
  {
    exists link :: link in queue && Downloadable(ping, link)
                   && c == Command.Build(cfg.useTemp, cfg.workDir, cfg.options, link)
  }

  /** Every command run is the command for a downloadable link of the
      starting queue; links that are not YouTube links, or do not answer
      the ping, are never handed to yt-dlp. */
  lemma DrainCommands(cfg: Setup, ping: string -> bool, run: nat -> ToolRun, s: Session)
    requires s.ending == Running
    ensures var e := Drain(cfg, ping, run, s);
      forall k :: |s.commands| <= k < |e.commands| ==> CommandForQueued(cfg, ping, s.queue, e.commands[k])
  {
    var e := Drain(cfg, ping, run, s);
    forall k | |s.commands| <= k < |e.commands|
      ensures CommandForQueued(cfg, ping, s.queue, e.commands[k])
    {
      var link := DrainCommandLink(cfg, ping, run, s, k);
    }
  }

  /** The link whose command is the `k`-th one run. */
  lemma {:induction false} DrainCommandLink(cfg: Setup, ping: string -> bool, run: nat -> ToolRun, s: Session, k: nat)
    returns (link: string)
    requires s.ending == Running && |s.commands| <= k < |Drain(cfg, ping, run, s).commands|
    ensures link in s.queue && Downloadable(ping, link)
    ensures Drain(cfg, ping, run, s).commands[k] == Command.Build(cfg.useTemp, cfg.workDir, cfg.options, link)
    decreases |s.queue|
  {
    var n := Visit(cfg, ping, run, s);
    VisitCommands(cfg, ping, run, s);
    var e := Drain(cfg, ping, run, s);
    assert e == Drain(cfg, ping, run, n);
    if k < |n.commands| {
      if n.ending == Running {
        DrainShape(cfg, ping, run, n);
        assert e.commands[k] == e.commands[..|n.commands|][k];
      }
      assert e.commands[k] == n.commands[k];
      link := s.queue[0];
    } else {
      assert n.ending == Running;
      link := DrainCommandLink(cfg, ping, run, n, k);
    }
  }

  /** The queue file keeps up with the queue: it lists it, or, while
      staging, has been emptied by a relocation. */
  lemma {:induction false} DrainFile(cfg: Setup, ping: string -> bool, run: nat -> ToolRun, s: Session)
    requires s.ending == Running && FileTracks(cfg, s.queueFile, s.queue)
    ensures var e := Drain(cfg, ping, run, s); FileTracks(cfg, e.queueFile, e.queue)
    decreases |s.queue|
  {
    if s.queue != [] {
      var n := Visit(cfg, ping, run, s);
      VisitSpec(cfg, ping, run, s);
      if n.ending == Running {
        DrainFile(cfg, ping, run, n);
      }
    }
  }

  /** Without staging nothing is relocated and the file always lists the
      queue. */
  lemma DrainWithoutStaging(cfg: Setup, ping: string -> bool, run: nat -> ToolRun, s: Session)
    requires !cfg.useTemp && s.ending == Running && s.queueFile == Some(SaveQueue(s.queue))
    ensures var e := Drain(cfg, ping, run, s);
      e.queueFile == Some(SaveQueue(e.queue)) && e.actions == s.actions
  {
    DrainFile(cfg, ping, run, s);
    DrainNoActions(cfg, ping, run, s);
  }

  lemma {:induction false} DrainNoActions(cfg: Setup, ping: string -> bool, run: nat -> ToolRun, s: Session)
    requires !cfg.useTemp && s.ending == Running
    ensures Drain(cfg, ping, run, s).actions == s.actions
    decreases |s.queue|
  {
    if s.queue != [] {
      var n := Visit(cfg, ping, run, s);
      VisitSpec(cfg, ping, run, s);
      if n.ending == Running {
        DrainNoActions(cfg, ping, run, n);
      }
    }
  }

  /** The remembered position stays both unknown or both known through a
      whole session. */
  lemma {:induction false} DrainCountersOk(cfg: Setup, ping: string -> bool, run: nat -> ToolRun, s: Session)
    requires s.ending == Running && CountersOk(s.view.counters)
    ensures CountersOk(Drain(cfg, ping, run, s).view.counters)
    decreases |s.queue|
  {
    if s.queue != [] {
      var n := Visit(cfg, ping, run, s);
      VisitSpec(cfg, ping, run, s);
      if n.ending == Running {
        DrainCountersOk(cfg, ping, run, n);
      }
    }
  }

  /** While staging outside the default path, a failure after a relocation
      loses the rest of the queue from the file: with two downloadable
      links, a first run that succeeds and leaves files behind and a second
      that fails, the loop breaks with the second link still queued but the
      file empty. */
  lemma QueueFileEmptiedBeforeBreak(cfg: Setup, ping: string -> bool, run: nat -> ToolRun, a: string, b: string)
    requires cfg.useTemp && !cfg.suppress && !Contains(cfg.workDir, cfg.defaultTemp)
    requires Downloadable(ping, a) && Downloadable(ping, b)
    requires run(0).succeeded && run(0).staged != [] && !run(1).succeeded
    ensures var e := Drain(cfg, ping, run, Start([a, b], Some(SaveQueue([a, b])), Unknown, true));
      e.ending == Broke && e.queue == [b] && e.queueFile == Some("") && QueueText.LoadQueue("") == []
  {
    var s0 := Start([a, b], Some(SaveQueue([a, b])), Unknown, true);
    VisitSpec(cfg, ping, run, s0);
    var s1 := Visit(cfg, ping, run, s0);
    assert [a, b][1..] == [b];
    assert s1.queue == [b] && s1.queueFile == Some("") && |s1.commands| == 1 && s1.ending == Running;
    assert s1.workDirExists;
    VisitSpec(cfg, ping, run, s1);
    var s2 := Visit(cfg, ping, run, s1);
    assert s2.ending == Broke && s2.queue == [b] && s2.queueFile == Some("");
    assert Drain(cfg, ping, run, s0) == Drain(cfg, ping, run, s1) == Drain(cfg, ping, run, s2) == s2;
  }

  /** Staging under the default path, the first download that leaves files
      behind also removes the folder the tool runs in: the next downloadable
      link crashes the session, with that link still queued, the queue file
      already empty and only the first command run. */
  lemma DefaultStagingCrashes(cfg: Setup, ping: string -> bool, run: nat -> ToolRun, a: string, b: string)
    requires cfg.useTemp && Contains(cfg.workDir, cfg.defaultTemp)
    requires Downloadable(ping, a) && Downloadable(ping, b)
    requires (cfg.suppress || run(0).succeeded) && run(0).staged != []
    ensures var e := Drain(cfg, ping, run, Start([a, b], Some(SaveQueue([a, b])), Unknown, true));
      && e.ending == Crashed && e.queue == [b] && e.queueFile == Some("") && |e.commands| == 1
      && RemoveDir(cfg.workDir) in e.actions
  {
    var s0 := Start([a, b], Some(SaveQueue([a, b])), Unknown, true);
    VisitSpec(cfg, ping, run, s0);
    var s1 := Visit(cfg, ping, run, s0);
    assert [a, b][1..] == [b];
    assert s1.queue == [b] && s1.queueFile == Some("") && |s1.commands| == 1 && s1.ending == Running;
    assert !s1.workDirExists;
    VisitSpec(cfg, ping, run, s1);
    var s2 := Visit(cfg, ping, run, s1);
    assert s2.ending == Crashed && s2.queue == [b] && s2.actions == s1.actions;
    assert Drain(cfg, ping, run, s0) == Drain(cfg, ping, run, s1) == Drain(cfg, ping, run, s2) == s2;
  }

  /** The state yt-dlp-sc keeps in module globals. A missing file is `None`;
      `home` is the value `~` expands to. The flags start as the module sets
      them before the options file is read. */
  class App {
    var queue: seq<string>
    var queueFile: Option<string>
    var configFile: Option<string>
    var home: string
    var downloadDirectory: string
    var tempDownloadDirectory: string
    var ytDlpOptions: string
    var useTempFolder: bool
    var suppressOutput: bool
    var debug: bool
    var pretty: bool
    var counters: Counters
    var panel: string

    constructor (homeDir: string, config: Option<string>, savedQueue: Option<string>)
      ensures home == homeDir && configFile == config && queueFile == savedQueue && queue == []
      ensures downloadDirectory == "~" && tempDownloadDirectory == "~" && ytDlpOptions == ""
      ensures !useTempFolder && !suppressOutput && debug && !pretty
      ensures counters == Unknown && panel == FetchingPanel
    {
      home := homeDir;
      configFile := config;
      queueFile := savedQueue;
      queue := [];
      downloadDirectory := "~";
      tempDownloadDirectory := "~";
      ytDlpOptions := "";
      useTempFolder := false;
      suppressOutput := false;
      debug := true;
      pretty := false;
      counters := Unknown;
      panel := FetchingPanel;
    }

    /** The settings as `save_config` writes them, directories expanded. */
    function Saved(): Options
      reads this
    {
      Options(ExpandUser(home, downloadDirectory), ExpandUser(home, tempDownloadDirectory), ytDlpOptions,
              useTempFolder, suppressOutput, debug, pretty)
    }

    /** `load_queue`: the queue becomes the file's links; a missing file is
        created empty and the queue stays as it is. */
    method LoadQueue()
      modifies this`queue, this`queueFile
      ensures old(queueFile).Some? ==> queue == QueueText.LoadQueue(old(queueFile).value) && queueFile == old(queueFile)
      ensures old(queueFile).None? ==> queue == old(queue) && queueFile == Some("")
    {
      if queueFile.Some? {
        queue := QueueText.LoadQueue(queueFile.value);
      } else {
        queueFile := Some("");
      }
    }

    method SaveQueue()
      modifies this`queueFile
      ensures queueFile == Some(QueueText.SaveQueue(queue))
    {
      queueFile := Some(QueueText.SaveQueue(queue));
    }

    /** `add_to_queue`: the link goes at the tail and the queue is saved. */
    method AddToQueue(link: string)
      modifies this`queue, this`queueFile
      ensures queue == old(queue) + [link]
      ensures queueFile == Some(QueueText.SaveQueue(queue))
    {
      queue := queue + [link];
      SaveQueue();
    }

    /** `remove_from_queue`: an index in range removes that link and saves;
        any other index changes nothing. */
    method RemoveFromQueue(index: int) returns (removed: Option<string>)
      modifies this`queue, this`queueFile
      ensures queue == RemoveAt(old(queue), index)
      ensures removed == if 0 <= index < |old(queue)| then Some(old(queue)[index]) else None
      ensures queueFile == if removed.Some? then Some(QueueText.SaveQueue(queue)) else old(queueFile)
    {
      if 0 <= index < |queue| {
        removed := Some(queue[index]);
        queue := queue[..index] + queue[index + 1..];
        SaveQueue();
      } else {
        removed := None;
      }
    }

    /** `clear_queue` on the queue file: it is emptied; the queue in memory
        is not touched. */
    method ClearQueue()
      modifies this`queueFile
      ensures queueFile == Some("")
    {
      queueFile := Some("");
    }

    /** `save_config`: the eight lines of the options file. */
    method SaveConfig()
      modifies this`configFile
      ensures configFile == Some(ConfigText(Saved()))
    {
      configFile := Some(ConfigText(Saved()));
    }

    /** `set_temp_directory_option`: a yes or no answer sets the flag and
        saves; anything else changes nothing. Returns the answer. */
    method SetTempDirectoryOption(option: string) returns (answer: Option<bool>)
      modifies this`useTempFolder, this`configFile
      ensures answer == ParseYesNo(option)
      ensures useTempFolder == if answer.Some? then answer.value else old(useTempFolder)
      ensures configFile == if answer.Some? then Some(ConfigText(Saved())) else old(configFile)
    {
      answer := ParseYesNo(option);
      if answer.Some? {
        useTempFolder := answer.value;
        SaveConfig();
      }
    }

    /** `set_suppress_option`, the same for the output suppression flag. */
    method SetSuppressOption(option: string) returns (answer: Option<bool>)
      modifies this`suppressOutput, this`configFile
      ensures answer == ParseYesNo(option)
      ensures suppressOutput == if answer.Some? then answer.value else old(suppressOutput)
      ensures configFile == if answer.Some? then Some(ConfigText(Saved())) else old(configFile)
    {
      answer := ParseYesNo(option);
      if answer.Some? {
        suppressOutput := answer.value;
        SaveConfig();
      }
    }

    /** `set_debug` */
    method SetDebug(option: string)
      modifies this`debug, this`configFile
      ensures debug == if ParseYesNo(option).Some? then ParseYesNo(option).value else old(debug)
      ensures configFile == if ParseYesNo(option).Some? then Some(ConfigText(Saved())) else old(configFile)
    {
      var answer := ParseYesNo(option);
      if answer.Some? {
        debug := answer.value;
        SaveConfig();
      }
    }

    /** `set_pretty` */
    method SetPretty(option: string)
      modifies this`pretty, this`configFile
      ensures pretty == if ParseYesNo(option).Some? then ParseYesNo(option).value else old(pretty)
      ensures configFile == if ParseYesNo(option).Some? then Some(ConfigText(Saved())) else old(configFile)
    {
      var answer := ParseYesNo(option);
      if answer.Some? {
        pretty := answer.value;
        SaveConfig();
      }
    }

    /** `set_yt_dlp_options`: the whole text is kept and saved. */
    method SetYtDlpOptions(options: string)
      modifies this`ytDlpOptions, this`configFile
      ensures ytDlpOptions == options && configFile == Some(ConfigText(Saved()))
    {
      ytDlpOptions := options;
      SaveConfig();
    }

    /** `set_download_directory`; `writable` is the answer of
        `is_writable(directory)`. A folder equal to the staging folder, or
        one that is not writable, is refused. */
    method SetDownloadDirectory(directory: string, writable: bool)
      modifies this`downloadDirectory, this`configFile
      ensures var accepted := ExpandUser(home, directory) != ExpandUser(home, old(tempDownloadDirectory)) && writable;
        && downloadDirectory == (if accepted then ExpandUser(home, directory) else old(downloadDirectory))
        && configFile == (if accepted then Some(ConfigText(Saved())) else old(configFile))
    {
      if ExpandUser(home, directory) == ExpandUser(home, tempDownloadDirectory) {
        return;
      }
      if writable {
        downloadDirectory := ExpandUser(home, directory);
        SaveConfig();
      }
    }

    /** `set_temp_directory`, the same for the staging folder. */
    method SetTempDirectory(directory: string, writable: bool)
      modifies this`tempDownloadDirectory, this`configFile
      ensures var accepted := ExpandUser(home, directory) != ExpandUser(home, old(downloadDirectory)) && writable;
        && tempDownloadDirectory == (if accepted then ExpandUser(home, directory) else old(tempDownloadDirectory))
        && configFile == (if accepted then Some(ConfigText(Saved())) else old(configFile))
    {
      if ExpandUser(home, directory) == ExpandUser(home, downloadDirectory) {
        return;
      }
      if writable {
        tempDownloadDirectory := ExpandUser(home, directory);
        SaveConfig();
      }
    }

    /** `extract_download_details`: the captured fields of one line, with the
        position counters updated from it. */
    method ExtractDownloadDetails(line: string) returns (d: Details)
      modifies this`counters
      ensures d == Extract(line, old(counters)) && counters == d.counters
    {
      d := Extract(line, counters);
      counters := d.counters;
    }

    /** `format_download_status` */
    method FormatDownloadStatus(line: string) returns (status: string)
      modifies this`counters
      ensures counters == Extract(line, old(counters)).counters
      ensures status == DownloadStatus(Extract(line, old(counters)))
    {
      var d := ExtractDownloadDetails(line);
      status := DownloadStatus(d);
    }

    /** `format_merging_status` */
    method FormatMergingStatus(line: string) returns (status: string)
      modifies this`counters
      ensures counters == Extract(line, old(counters)).counters
      ensures status == MergingStatus(Extract(line, old(counters)))
    {
      var d := ExtractDownloadDetails(line);
      status := MergingStatus(d);
    }

    /** The suppressed-mode panel over one run's output: it starts at
        "Fetching download information" and each progress or merging line
        replaces it. */
    method ShowProgress(output: seq<string>)
      modifies this`counters, this`panel
      ensures View(counters, panel) == Display(output, View(old(counters), FetchingPanel))
    {
      panel := FetchingPanel;
      for i := 0 to |output|
        invariant Display(output, View(old(counters), FetchingPanel)) == Display(output[i..], View(counters, panel))
      {
        var line := output[i];
        assert output[i..] == [line] + output[i + 1..];
        if IsProgressLine(line) {
          panel := FormatDownloadStatus(line);
        }
        if IsMergingLine(line) {
          panel := FormatMergingStatus(line);
        }
      }
    }

    /** `move_files_to_final_directory` for the listing `names` of the
        staging folder `tempDir`. */
    method MoveFilesToFinalDirectory(tempDir: string, names: seq<string>) returns (actions: seq<Action>)
      modifies this`queueFile
      ensures actions == Relocation.Relocation(tempDir, ExpandUser(home, downloadDirectory), ExpandUser(home, DefaultTemp), names)
      ensures queueFile == if names == [] then old(queueFile) else Some("")
    {
      actions := Relocate(tempDir, ExpandUser(home, downloadDirectory), ExpandUser(home, DefaultTemp), names);
      if names != [] {
        ClearQueue();
      }
    }

    /** What this state fixes for a session. */
    function SetupOf(): Setup
      reads this
    {
      var finalDir := ExpandUser(home, downloadDirectory);
      Setup(useTempFolder, suppressOutput, ytDlpOptions,
            if useTempFolder then ExpandUser(home, tempDownloadDirectory) else finalDir,
            finalDir, ExpandUser(home, DefaultTemp))
    }

    /** `download_queue`. `workDirExists` answers whether the folder the
        tool runs in (the staging folder when staging, the download folder
        otherwise) exists, `downloadsWritable` the check on ~/Downloads,
        `ping` the responsiveness check and `run(k)` the k-th run of yt-dlp.
        Returns whether the loop was reached, the commands run, the
        relocation actions, whether the working folder still exists and how
        the loop ended. */
    method DownloadQueue(workDirExists: bool, downloadsWritable: bool, ping: string -> bool, run: nat -> ToolRun)
      returns (started: bool, commands: seq<seq<string>>, actions: seq<Action>, folder: bool, ending: Ending)
      modifies this`queue, this`queueFile, this`counters, this`panel
      ensures started == Proceeds(useTempFolder, debug, SetupOf().workDir, SetupOf().defaultTemp, workDirExists, downloadsWritable)
      ensures !started ==> queue == old(queue) && queueFile == old(queueFile) && counters == old(counters)
                           && panel == old(panel) && commands == [] && actions == [] && ending == Running
      ensures started ==> Session(queue, queueFile, View(counters, panel), commands, actions, folder, ending)
                          == Drain(SetupOf(), ping, run,
                                   Session(old(queue), old(queueFile), View(old(counters), old(panel)), [], [],
                                           FolderAtStart(useTempFolder, SetupOf().workDir, SetupOf().defaultTemp,
                                                         workDirExists, downloadsWritable),
                                           Running))
    {
      var cfg := SetupOf();
      commands, actions, folder, ending := [], [], workDirExists, Running;
      started := Proceeds(useTempFolder, debug, cfg.workDir, cfg.defaultTemp, workDirExists, downloadsWritable);
      if !started {
        return;
      }
      folder := FolderAtStart(useTempFolder, cfg.workDir, cfg.defaultTemp, workDirExists, downloadsWritable);
      ghost var start := Session(queue, queueFile, View(counters, panel), [], [], folder, Running);
      while queue != []
        invariant SetupOf() == cfg
        invariant ending == Running
        invariant Drain(cfg, ping, run, Session(queue, queueFile, View(counters, panel), commands, actions, folder, Running))
               == Drain(cfg, ping, run, start)
        decreases |queue|
      {
        var next;
        commands, actions, folder, next := VisitHead(cfg, ping, run, commands, actions, folder);
        if next != Running {
          ending := next;
          break;
        }
      }
    }

    /** One round of `download_queue`'s loop on the head of the queue;
        `ending` is `Broke` for the `break` and `Crashed` when the tool
        cannot be started. */
    method VisitHead(cfg: Setup, ping: string -> bool, run: nat -> ToolRun, commands0: seq<seq<string>>,
                     actions0: seq<Action>, folder0: bool)
      returns (commands: seq<seq<string>>, actions: seq<Action>, folder: bool, ending: Ending)
      requires queue != [] && cfg == SetupOf()
      modifies this`queue, this`queueFile, this`counters, this`panel
      ensures Session(queue, queueFile, View(counters, panel), commands, actions, folder, ending)
           == Visit(cfg, ping, run, Session(old(queue), old(queueFile), View(old(counters), old(panel)),
                                            commands0, actions0, folder0, Running))
    {
      var link := queue[0];
      var linkValid, linkResponsive := false, false;
      if Contains(link, YouTubeMark) {
        linkValid := true;
        if ping(link) {
          linkResponsive := true;
        } else {
          queue := queue[1..];
          SaveQueue();
        }
      } else {
        queue := queue[1..];
        SaveQueue();
      }
      if linkValid && linkResponsive {
        commands, actions, folder, ending := DownloadHead(cfg, ping, run, commands0, actions0, folder0);
      } else {
        commands, actions, folder, ending := commands0, actions0, folder0, Running;
      }
    }

    /** The rest of the round for a head that is a responsive YouTube link:
        yt-dlp is started in the working folder (a missing folder raises an
        exception that ends the session), and then the head is dropped (or
        the loop breaks off) and the staged files are relocated. */
    method DownloadHead(cfg: Setup, ping: string -> bool, run: nat -> ToolRun, commands0: seq<seq<string>>,
                        actions0: seq<Action>, folder0: bool)
      returns (commands: seq<seq<string>>, actions: seq<Action>, folder: bool, ending: Ending)
      requires queue != [] && cfg == SetupOf() && Downloadable(ping, queue[0])
      modifies this`queue, this`queueFile, this`counters, this`panel
      ensures Session(queue, queueFile, View(counters, panel), commands, actions, folder, ending)
           == Visit(cfg, ping, run, Session(old(queue), old(queueFile), View(old(counters), old(panel)),
                                            commands0, actions0, folder0, Running))
    {
      if !folder0 {
        if suppressOutput {
          panel := FetchingPanel;
        }
        commands, actions, folder, ending := commands0, actions0, folder0, Crashed;
      } else {
        commands, actions, folder, ending := RunHead(cfg, ping, run, commands0, actions0);
      }
    }

    /** The download part of a round once yt-dlp can be started. */
    method RunHead(cfg: Setup, ping: string -> bool, run: nat -> ToolRun, commands0: seq<seq<string>>,
                   actions0: seq<Action>)
      returns (commands: seq<seq<string>>, actions: seq<Action>, folder: bool, ending: Ending)
      requires queue != [] && cfg == SetupOf() && Downloadable(ping, queue[0])
      modifies this`queue, this`queueFile, this`counters, this`panel
      ensures Session(queue, queueFile, View(counters, panel), commands, actions, folder, ending)
           == Visit(cfg, ping, run, Session(old(queue), old(queueFile), View(old(counters), old(panel)),
                                            commands0, actions0, true, Running))
    {
      commands, actions, folder, ending := commands0, actions0, true, Running;
      var link := queue[0];
      var command := Command.Build(useTempFolder, cfg.workDir, ytDlpOptions, link);
      var out := run(|commands|);
      commands := commands + [command];
      if suppressOutput {
        ShowProgress(out.output);
        queue := queue[1..];
        SaveQueue();
      } else if out.succeeded {
        queue := queue[1..];
        SaveQueue();
      } else {
        ending := Broke;
        return;
      }
      actions, folder := RelocateStaged(cfg, out, commands, actions);
    }

    /** The relocation at the end of a round whose download did not break
        the loop. */
    method RelocateStaged(cfg: Setup, out: ToolRun, commands: seq<seq<string>>, actions0: seq<Action>)
      returns (actions: seq<Action>, folder: bool)
      requires cfg == SetupOf()
      modifies this`queueFile
      ensures Session(queue, queueFile, View(counters, panel), commands, actions, folder, Running)
           == AfterDownload(cfg, out, Session(queue, old(queueFile), View(counters, panel), commands, actions0, true, Running))
    {
      actions, folder := actions0, true;
      if useTempFolder {
        var moved := MoveFilesToFinalDirectory(cfg.workDir, out.staged);
        actions := actions + moved;
        folder := !RemovesFolder(cfg, out.staged);
      }
    }
  }
}
