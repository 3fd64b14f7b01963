/** yt_queue: the queue keeper that runs yt-dlp on each link and, when a
    download fails, puts the link back at the end of the queue and tries
    again later. */
module YtQueue {
  import opened Wrappers
  import opened PyText
  import opened PyInt
  import opened QueueText
  import opened QueueSettings
  import Command

  /** The command for one link: no archive option, the options split on
      whitespace, the link last. */
  function CommandFor(options: string, link: string): (cmd: seq<string>)
    ensures cmd == ["yt-dlp"] + Split(options) + [link]
  {
    Command.Build(false, "", options, link)
  }

  /** What the download loop has done so far: the queue, the queue file, the
      commands run, the links whose command succeeded, and whether the wait
      before a retry raised an exception that ended the program. */
  datatype Run = Run(queue: seq<string>, queueFile: Option<string>, commands: seq<seq<string>>, done: seq<string>,
                     crashed: bool)

  /** Whether `time.sleep(delay * 60)` raises: it refuses a negative length
      with `ValueError`, which nothing catches. */
  predicate SleepFails(delay: int) { delay < 0 }

  /** One round of `download_queue`'s loop; `delay` is the retry delay in
      minutes and `succeeds(k)` the exit status of the k-th command. The head
      is popped and its command run; a failed link goes back at the tail, the
      queue is saved, and the wait before the retry ends the program when
      the delay is negative; a successful link is only dropped. */
  function Step(options: string, delay: int, succeeds: nat -> bool, r: Run): Run
    requires r.queue != []
  {
    var link := r.queue[0];
    var commands := r.commands + [CommandFor(options, link)];
    if succeeds(|r.commands|) then Run(r.queue[1..], r.queueFile, commands, r.done + [link], false)
    else
      var q := r.queue[1..] + [link];
      Run(q, Some(SaveQueue(q)), commands, r.done, SleepFails(delay))
  }

  /** The loop of `download_queue`, for at most `fuel` rounds, until the
      queue is empty or the program has crashed. */
  function Rotate(options: string, delay: int, succeeds: nat -> bool, r: Run, fuel: nat): Run
    decreases fuel
  {
    if r.queue == [] || r.crashed || fuel == 0 then r
    else Rotate(options, delay, succeeds, Step(options, delay, succeeds, r), fuel - 1)
  }

  /** One round moves the head either to the finished links or to the tail,
      and runs one command, the one for that head. */
  lemma StepSpec(options: string, delay: int, succeeds: nat -> bool, r: Run)
    requires r.queue != []
    ensures var n := Step(options, delay, succeeds, r);
      && multiset(n.queue + n.done) == multiset(r.queue + r.done)
      && |n.queue| + |n.done| == |r.queue| + |r.done|
      && n.commands == r.commands + [CommandFor(options, r.queue[0])]
      && (forall link :: link in n.queue ==> link in r.queue)
      && (succeeds(|r.commands|) ==> n.queue == r.queue[1..] && n.done == r.done + [r.queue[0]] && n.queueFile == r.queueFile)
      && (!succeeds(|r.commands|) ==> n.queue == r.queue[1..] + [r.queue[0]] && n.done == r.done && n.queueFile == Some(SaveQueue(n.queue)))
      && (n.crashed <==> !succeeds(|r.commands|) && delay < 0)
  {
    assert r.queue == [r.queue[0]] + r.queue[1..];
  }

  /** No link is lost or duplicated: the queue and the finished links
      together are always the links there were at the start. */
  lemma {:induction false} RotateKeepsLinks(options: string, delay: int, succeeds: nat -> bool, r: Run, fuel: nat)
    ensures var e := Rotate(options, delay, succeeds, r, fuel);
      && multiset(e.queue + e.done) == multiset(r.queue + r.done)
      && |e.queue| + |e.done| == |r.queue| + |r.done|
    decreases fuel
  {
    if r.queue != [] && !r.crashed && fuel > 0 {
      StepSpec(options, delay, succeeds, r);
      RotateKeepsLinks(options, delay, succeeds, Step(options, delay, succeeds, r), fuel - 1);
    }
  }

  /** Every round runs one command, for a link that was queued at the start;
      the loop stops with links left only when the rounds are used up or the
      program has crashed, so, unless the wait crashes it, it never gives up
      on a link. */
  lemma {:induction false} RotateRounds(options: string, delay: int, succeeds: nat -> bool, r: Run, fuel: nat)
    ensures var e := Rotate(options, delay, succeeds, r, fuel);
      && |r.commands| <= |e.commands| <= |r.commands| + fuel
      && e.commands[..|r.commands|] == r.commands
      && (forall k :: |r.commands| <= k < |e.commands| ==>
            exists link :: link in r.queue && e.commands[k] == CommandFor(options, link))
      && (e.queue != [] && !e.crashed ==> |e.commands| == |r.commands| + fuel)
      && (forall link :: link in e.queue ==> link in r.queue)
    decreases fuel
  {
    if r.queue != [] && !r.crashed && fuel > 0 {
      var n := Step(options, delay, succeeds, r);
      StepSpec(options, delay, succeeds, r);
      RotateRounds(options, delay, succeeds, n, fuel - 1);
      var e := Rotate(options, delay, succeeds, r, fuel);
      assert e.commands[..|n.commands|] == n.commands;
      assert e.commands[..|r.commands|] == n.commands[..|r.commands|];
      forall k | |r.commands| <= k < |e.commands|
        ensures exists link :: link in r.queue && e.commands[k] == CommandFor(options, link)
      {
        if k == |r.commands| {
          assert e.commands[k] == n.commands[k];
          assert r.queue[0] in r.queue;
        } else {
          var link :| link in n.queue && e.commands[k] == CommandFor(options, link);
          assert link in r.queue;
        }
      }
    }
  }

  /** The program crashes only in the wait after a failed command, and only
      with a negative delay; the queue file then lists the rotated queue.
      With a delay that is not negative the loop never crashes. */
  lemma {:induction false} RotateCrash(options: string, delay: int, succeeds: nat -> bool, r: Run, fuel: nat)
    requires !r.crashed
    ensures var e := Rotate(options, delay, succeeds, r, fuel);
      && (e.crashed ==> && delay < 0 && |r.commands| < |e.commands| && !succeeds(|e.commands| - 1)
                        && e.queueFile == Some(SaveQueue(e.queue)))
      && (delay >= 0 ==> !e.crashed)
    decreases fuel
  {
    if r.queue != [] && fuel > 0 {
      var n := Step(options, delay, succeeds, r);
      StepSpec(options, delay, succeeds, r);
      if !n.crashed {
        RotateCrash(options, delay, succeeds, n, fuel - 1);
      } else {
        assert Rotate(options, delay, succeeds, r, fuel) == n;
      }
    }
  }

  /** With a negative delay the first failure ends the program: the failed
      link has gone back at the tail and the file lists that queue, and no
      other command is run. */
  lemma NegativeDelayCrashes(options: string, delay: int, succeeds: nat -> bool, a: string, b: string, fuel: nat)
    requires delay < 0 && !succeeds(0) && fuel > 0
    ensures var e := Rotate(options, delay, succeeds, Run([a, b], None, [], [], false), fuel);
      e.crashed && e.queue == [b, a] && e.queueFile == Some(SaveQueue([b, a])) && |e.commands| == 1 && e.done == []
  {
    var r0 := Run([a, b], None, [], [], false);
    var r1 := Step(options, delay, succeeds, r0);
    assert [a, b][1..] + [a] == [b, a];
    assert r1.crashed && r1.queue == [b, a];
    assert Rotate(options, delay, succeeds, r0, fuel) == Rotate(options, delay, succeeds, r1, fuel - 1) == r1;
  }

  /** When every command succeeds and there are rounds enough, the queue
      empties, the links finish in their queue order and the queue file is
      never written. */
  lemma {:induction false} RotateAllSucceed(options: string, delay: int, succeeds: nat -> bool, r: Run, fuel: nat)
    requires fuel >= |r.queue| && !r.crashed
    requires forall k :: |r.commands| <= k < |r.commands| + |r.queue| ==> succeeds(k)
    ensures var e := Rotate(options, delay, succeeds, r, fuel);
      e.queue == [] && e.done == r.done + r.queue && e.queueFile == r.queueFile
      && |e.commands| == |r.commands| + |r.queue|
    decreases fuel
  {
    if r.queue != [] {
      var n := Step(options, delay, succeeds, r);
      StepSpec(options, delay, succeeds, r);
      RotateAllSucceed(options, delay, succeeds, n, fuel - 1);
      assert r.done + [r.queue[0]] + r.queue[1..] == r.done + r.queue;
    }
  }

  /** The queue file is written only after a failure: when none of the
      commands run failed, the file is what it was. */
  lemma {:induction false} RotateFileOnlyOnFailure(options: string, delay: int, succeeds: nat -> bool, r: Run, fuel: nat)
    requires forall k :: |r.commands| <= k < |r.commands| + fuel ==> succeeds(k)
    ensures Rotate(options, delay, succeeds, r, fuel).queueFile == r.queueFile
    decreases fuel
  {
    if r.queue != [] && !r.crashed && fuel > 0 {
      StepSpec(options, delay, succeeds, r);
      RotateFileOnlyOnFailure(options, delay, succeeds, Step(options, delay, succeeds, r), fuel - 1);
    }
  }

  /** The file lists some links and then the queue: links that finished after
      the last save are still at its front. */
  ghost predicate ListsTail(file: Option<string>, queue: seq<string>)
  {
    exists front: seq<string> :: file == Some(SaveQueue(front + queue))
  }

  lemma ListsTailStep(options: string, delay: int, succeeds: nat -> bool, r: Run)
    requires r.queue != []
    requires ListsTail(r.queueFile, r.queue) || !succeeds(|r.commands|)
    ensures var n := Step(options, delay, succeeds, r); ListsTail(n.queueFile, n.queue)
  {
    var n := Step(options, delay, succeeds, r);
    StepSpec(options, delay, succeeds, r);
    if succeeds(|r.commands|) {
      var front :| r.queueFile == Some(SaveQueue(front + r.queue));
      assert front + r.queue == (front + [r.queue[0]]) + n.queue;
    } else {
      var none: seq<string> := [];
      assert none + n.queue == n.queue;
    }
  }

  /** After the last save the file is only ever behind the queue: it holds
      the queue at its end, preceded by the links downloaded since. */
  lemma {:induction false} RotateFileListsTail(options: string, delay: int, succeeds: nat -> bool, r: Run, fuel: nat)
    requires ListsTail(r.queueFile, r.queue)
    ensures var e := Rotate(options, delay, succeeds, r, fuel); ListsTail(e.queueFile, e.queue)
    decreases fuel
  {
    if r.queue != [] && !r.crashed && fuel > 0 {
      ListsTailStep(options, delay, succeeds, r);
      RotateFileListsTail(options, delay, succeeds, Step(options, delay, succeeds, r), fuel - 1);
    }
  }

  /** Once a command has failed, the file lists the queue's tail for the
      rest of the loop. */
  lemma RotateAfterFailure(options: string, delay: int, succeeds: nat -> bool, r: Run, fuel: nat)
    requires r.queue != [] && !r.crashed && fuel > 0 && !succeeds(|r.commands|)
    ensures var e := Rotate(options, delay, succeeds, r, fuel); ListsTail(e.queueFile, e.queue)
  {
    var n := Step(options, delay, succeeds, r);
    assert Rotate(options, delay, succeeds, r, fuel) == Rotate(options, delay, succeeds, n, fuel - 1);
    ListsTailStep(options, delay, succeeds, r);
    RotateFileListsTail(options, delay, succeeds, n, fuel - 1);
  }

  lemma SavedBA()
    ensures SaveQueue(["b", "a"]) == "b\na\n"
  {
    assert ["a"][1..] == [] && ["b", "a"][1..] == ["a"];
    assert SaveQueue(["a"]) == "a\n";
  }

  /** The file can fall behind: with ["a", "b"] queued, a first command that
      fails and two that succeed, the queue ends empty but the file still
      lists both links, so the next start downloads them again. */
  lemma StaleQueueFile(options: string, delay: int, succeeds: nat -> bool)
    requires 0 <= delay && !succeeds(0) && succeeds(1) && succeeds(2)
    ensures var e := Rotate(options, delay, succeeds, Run(["a", "b"], None, [], [], false), 3);
      e.queue == [] && e.done == ["b", "a"] && e.queueFile == Some("b\na\n")
  {
    var r0 := Run(["a", "b"], None, [], [], false);
    var r1 := Step(options, delay, succeeds, r0);
    assert Rotate(options, delay, succeeds, r0, 3) == Rotate(options, delay, succeeds, r1, 2);
    assert ["a", "b"][1..] + ["a"] == ["b", "a"];
    assert r1.queue == ["b", "a"] && r1.done == [] && !r1.crashed && |r1.commands| == 1;
    var r2 := Step(options, delay, succeeds, r1);
    assert Rotate(options, delay, succeeds, r1, 2) == Rotate(options, delay, succeeds, r2, 1);
    assert r2.queue == ["a"] && r2.done == ["b"] && r2.queueFile == r1.queueFile && |r2.commands| == 2;
    var r3 := Step(options, delay, succeeds, r2);
    assert Rotate(options, delay, succeeds, r2, 1) == Rotate(options, delay, succeeds, r3, 0);
    assert r3.queue == [] && r3.done == ["b", "a"] && r3.queueFile == r1.queueFile;
    SavedBA();
  }

  /** The state yt_queue keeps in module globals. The queue file is `None`
      while it does not exist; the options file always exists, because the
      module creates it when it is missing. */
  class App {
    var queue: seq<string>
    var queueFile: Option<string>
    var configFile: string
    var downloadDirectory: string
    var ytDlpOptions: string
    var retryDelay: int

    /** The globals as the module sets them: the working directory, no
        options, a 15-minute delay and an empty queue. */
    constructor (cwd: string, config: string, savedQueue: Option<string>)
      ensures queue == [] && queueFile == savedQueue && configFile == config
      ensures downloadDirectory == cwd && ytDlpOptions == "" && retryDelay == 15
    {
      queue := [];
      queueFile := savedQueue;
      configFile := config;
      downloadDirectory := cwd;
      ytDlpOptions := "";
      retryDelay := 15;
    }

    function Current(): Settings
      reads this
    {
      Settings(downloadDirectory, ytDlpOptions, retryDelay)
    }

    /** `ensure_header`: the header is put in front of the options file when
        its first line does not start with '['. */
    method EnsureHeader()
      modifies this`configFile
      ensures configFile == EnsureHeaderText(old(configFile))
    {
      var lines := ReadLines(configFile);
      if NeedsHeader(lines) {
        configFile := Concat(QueueSettings.EnsureHeader(lines));
      }
    }

    /** `load_config`: the lines of the options file applied one by one;
        `ok` is false when a delay line is not a number, where the source
        stops with `ValueError` and the settings read so far stay. */
    method LoadConfig() returns (ok: bool)
      modifies this`downloadDirectory, this`ytDlpOptions, this`retryDelay
      ensures Loaded(Current(), ok) == ApplyLines(ReadLines(configFile), old(Current()))
    {
      var lines := ReadLines(configFile);
      var i := 0;
      ok := true;
      while i < |lines|
        invariant 0 <= i <= |lines|
        invariant ApplyLines(lines, old(Current())) == ApplyLines(lines[i..], Current())
        decreases |lines| - i
      {
        var line := lines[i];
        ghost var before := Current();
        ApplyLinesFrom(lines, i, before);
        var value := FieldValue(line);
        if StartsWith(line, DirKey) {
          downloadDirectory := value;
        } else if StartsWith(line, OptionsKey) {
          ytDlpOptions := value;
        } else if StartsWith(line, DelayKey) {
          var n := ParseInt(value);
          if n.None? {
            assert ApplyLine(line, before) == None;
            ok := false;
            return;
          }
          retryDelay := n.value;
        }
        assert ApplyLine(line, before) == Some(Current());
        i := i + 1;
      }
    }

    /** `save_config`: the three settings, one line each. */
    method SaveConfig()
      modifies this`configFile
      ensures configFile == SaveConfigText(Current())
    {
      configFile := SaveConfigText(Current());
    }

    /** `load_queue`: the queue becomes the file's links; a missing file
        leaves the queue as it is. */
    method LoadQueue()
      modifies this`queue
      ensures queue == if queueFile.Some? then QueueText.LoadQueue(queueFile.value) else old(queue)
    {
      if queueFile.Some? {
        queue := QueueText.LoadQueue(queueFile.value);
      }
    }

    method SaveQueue()
      modifies this`queueFile
      ensures queueFile == Some(QueueText.SaveQueue(queue))
    {
      queueFile := Some(QueueText.SaveQueue(queue));
    }

    /** `clear_queue`: the file is emptied, the queue in memory is not. */
    method ClearQueue()
      modifies this`queueFile
      ensures queueFile == Some("")
    {
      queueFile := Some("");
    }

    /** `add_to_queue`: the link goes at the tail and the queue is saved. */
    method AddToQueue(link: string)
      modifies this`queue, this`queueFile
      ensures queue == old(queue) + [link]
      ensures queueFile == Some(QueueText.SaveQueue(queue))
    {
      queue := queue + [link];
      SaveQueue();
    }

    /** `remove_from_queue`: an index in range removes that link and saves;
        any other index changes nothing. */
    method RemoveFromQueue(index: int) returns (removed: Option<string>)
      modifies this`queue, this`queueFile
      ensures queue == RemoveAt(old(queue), index)
      ensures removed == if 0 <= index < |old(queue)| then Some(old(queue)[index]) else None
      ensures queueFile == if removed.Some? then Some(QueueText.SaveQueue(queue)) else old(queueFile)
    {
      if 0 <= index < |queue| {
        removed := Some(queue[index]);
        queue := queue[..index] + queue[index + 1..];
        SaveQueue();
      } else {
        removed := None;
      }
    }

    /** `set_download_directory`; `isDirectory` is the answer of
        `os.path.isdir(directory)`. The header check runs either way. */
    method SetDownloadDirectory(directory: string, isDirectory: bool)
      modifies this`downloadDirectory, this`configFile
      ensures downloadDirectory == if isDirectory then directory else old(downloadDirectory)
      ensures configFile == EnsureHeaderText(if isDirectory then SaveConfigText(Current()) else old(configFile))
    {
      if isDirectory {
        downloadDirectory := directory;
        SaveConfig();
      }
      EnsureHeader();
    }

    /** `set_retry_delay`: a number that is not negative becomes the delay
        and is saved; a negative number changes nothing, not even the header;
        text that is not a number only gets the header check. */
    method SetRetryDelay(text: string)
      modifies this`retryDelay, this`configFile
      ensures match ParseInt(text)
        case None => retryDelay == old(retryDelay) && configFile == EnsureHeaderText(old(configFile))
        case Some(n) =>
          if n < 0 then retryDelay == old(retryDelay) && configFile == old(configFile)
          else retryDelay == n && configFile == EnsureHeaderText(SaveConfigText(Current()))
    {
      var delay := ParseInt(text);
      if delay.Some? {
        if delay.value < 0 {
          return;
        }
        retryDelay := delay.value;
        SaveConfig();
      }
      EnsureHeader();
    }

    /** `set_yt_dlp_options`: the whole text is kept as it is and saved. */
    method SetYtDlpOptions(options: string)
      modifies this`ytDlpOptions, this`configFile
      ensures ytDlpOptions == options
      ensures configFile == EnsureHeaderText(SaveConfigText(Current()))
    {
      ytDlpOptions := options;
      SaveConfig();
      EnsureHeader();
    }

    /** `download_queue`, for at most `fuel` rounds; `succeeds(k)` is the exit
        status of the k-th command. Returns the commands run, the links that
        finished, and whether the wait before a retry crashed the program. */
    method DownloadQueue(succeeds: nat -> bool, fuel: nat)
      returns (commands: seq<seq<string>>, done: seq<string>, crashed: bool)
      modifies this`queue, this`queueFile
      ensures Run(queue, queueFile, commands, done, crashed)
           == Rotate(ytDlpOptions, retryDelay, succeeds, Run(old(queue), old(queueFile), [], [], false), fuel)
    {
      commands, done, crashed := [], [], false;
      var rounds := fuel;
      while queue != [] && !crashed && rounds > 0
        invariant Rotate(ytDlpOptions, retryDelay, succeeds, Run(queue, queueFile, commands, done, crashed), rounds)
               == Rotate(ytDlpOptions, retryDelay, succeeds, Run(old(queue), old(queueFile), [], [], false), fuel)
        decreases rounds
      {
        var link := queue[0];
        queue := queue[1..];
        var command := CommandFor(ytDlpOptions, link);
        var ok := succeeds(|commands|);
        commands := commands + [command];
        if ok {
          done := done + [link];
        } else {
          queue := queue + [link];
          SaveQueue();
          crashed := SleepFails(retryDelay);
        }
        rounds := rounds - 1;
      }
    }
  }
}
