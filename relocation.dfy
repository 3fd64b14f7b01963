/** Emptying the staging folder after a download: every entry whose name
    mentions the archive file is deleted, every other entry is moved to the
    final folder, then the queue file is cleared and, under the default
    staging path, the staging folder itself is removed. */
module Relocation {
  import opened PyText
  import Command

  /** One effect on the filesystem, in the order the tool performs them. */
  datatype Action =
    | Remove(path: string)
    | Move(source: string, target: string)
    | ClearQueue
    | RemoveDir(path: string)

  /** What happens to one listed name. */
  function Handle(tempDir: string, finalDir: string, name: string): Action
  {
    if Contains(name, Command.ArchiveName) then Remove(PathJoin(tempDir, name))
    else Move(PathJoin(tempDir, name), PathJoin(finalDir, name))
  }

  /** The per-name actions for a listing, in listing order. */
  function HandleAll(tempDir: string, finalDir: string, names: seq<string>): seq<Action>
  {
    if names == [] then []
    else HandleAll(tempDir, finalDir, names[..|names| - 1]) + [Handle(tempDir, finalDir, names[|names| - 1])]
  }

  /** All actions for a listing of the staging folder; `defaultTemp` is the
      expanded default staging path. */
  function Relocation(tempDir: string, finalDir: string, defaultTemp: string, names: seq<string>): seq<Action>
  {
    if names == [] then []
    else HandleAll(tempDir, finalDir, names) + [ClearQueue]
         + (if Contains(tempDir, defaultTemp) then [RemoveDir(tempDir)] else [])
  }

  lemma {:induction false} HandleAllSpec(tempDir: string, finalDir: string, names: seq<string>)
    ensures |HandleAll(tempDir, finalDir, names)| == |names|
    ensures forall k :: 0 <= k < |names| ==> HandleAll(tempDir, finalDir, names)[k] == Handle(tempDir, finalDir, names[k])
    decreases |names|
  {
    if names != [] {
      HandleAllSpec(tempDir, finalDir, names[..|names| - 1]);
    }
  }

  /** The listing is partitioned: position `k` deletes `names[k]` from the
      staging folder exactly when the name mentions the archive file, and
      otherwise moves it to the same name in the final folder; the queue is
      cleared after the last name, and the staging folder is removed last
      exactly when its path contains the default one. An empty listing
      does nothing at all. */
  lemma RelocationSpec(tempDir: string, finalDir: string, defaultTemp: string, names: seq<string>)
    ensures var r := Relocation(tempDir, finalDir, defaultTemp, names);
      && (names == [] <==> r == [])
      && (names != [] ==>
           && |r| == |names| + 1 + (if Contains(tempDir, defaultTemp) then 1 else 0)
           && (forall k :: 0 <= k < |names| ==>
                 && (r[k] == Remove(PathJoin(tempDir, names[k])) <==> Contains(names[k], Command.ArchiveName))
                 && (!Contains(names[k], Command.ArchiveName) ==>
                       r[k] == Move(PathJoin(tempDir, names[k]), PathJoin(finalDir, names[k]))))
           && r[|names|] == ClearQueue
           && (Contains(tempDir, defaultTemp) ==> r[|names| + 1] == RemoveDir(tempDir)))
  {
    HandleAllSpec(tempDir, finalDir, names);
  }

  /** No action ever moves a name that mentions the archive file, and every
      move goes from the staging folder to the final folder. */
  lemma ArchiveNeverMoved(tempDir: string, finalDir: string, defaultTemp: string, names: seq<string>)
    ensures var r := Relocation(tempDir, finalDir, defaultTemp, names);
      forall k :: 0 <= k < |r| && r[k].Move? ==>
        k < |names| && !Contains(names[k], Command.ArchiveName)
        && r[k].source == PathJoin(tempDir, names[k]) && r[k].target == PathJoin(finalDir, names[k])
  {
    HandleAllSpec(tempDir, finalDir, names);
  }

  /** `move_files_to_final_directory`: the loop over the listing. */
  method Relocate(tempDir: string, finalDir: string, defaultTemp: string, names: seq<string>)
    returns (actions: seq<Action>)
    ensures actions == Relocation(tempDir, finalDir, defaultTemp, names)
  {
    if |names| == 0 {
      return [];
    }
    actions := [];
    for i := 0 to |names|
      invariant actions == HandleAll(tempDir, finalDir, names[..i])
    {
      assert names[..i + 1][..i] == names[..i];
      if Contains(names[i], Command.ArchiveName) {
        actions := actions + [Remove(PathJoin(tempDir, names[i]))];
      } else {
        actions := actions + [Move(PathJoin(tempDir, names[i]), PathJoin(finalDir, names[i]))];
      }
    }
    assert names[..|names|] == names;
    actions := actions + [ClearQueue];
    if Contains(tempDir, defaultTemp) {
      actions := actions + [RemoveDir(tempDir)];
    }
  }
}
